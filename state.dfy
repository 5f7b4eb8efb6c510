/** The state-initialisation layer of a component instance: props, methods, data,
    computed properties and watchers, the proxies that expose them on the instance,
    and `$watch`. */
module State {
  import opened Js
  import opened Reactivity

  // ---------------------------------------------------------------------------
  // Declarations and instance properties
  // ---------------------------------------------------------------------------

  /** The internal object a proxied key forwards to: `_data` or `_props`. */
  datatype Source = DataObject | PropsObject

  /** The getter a computed property is defined with. */
  datatype GetterKind =
    | CachedGetter(key: string)   // createComputedGetter(key)
    | Invoker(fn: Value)          // createGetterInvoker(fn)
    | NoopGetter

  /** The setter a computed property is defined with. */
  datatype SetterKind =
    | UserSetter(fn: Value)
    | NoopSetter
    | WarnSetter(key: string)     // the development-build setter that only warns

  /** A property visible on the instance, own or inherited from its prototype. */
  datatype Member =
    | Field(v: Value)                             // a plain data property
    | ProxyTo(source: Source)                     // defined by proxy()
    | Accessor(getter: GetterKind, setter: SetterKind)  // defined by defineComputed()

  /** A computed definition: a function, an object with optional get, set and cache
      (a primitive reads as an object with none of them), or null or undefined, on which
      reading `get` throws. */
  datatype ComputedDef =
    | ComputedFn(fn: Value)
    | ComputedObject(getter: Value, setter: Value, cache: Value)
    | ComputedNullish

  /** The value of `_data`: a plain object, or anything else the data option produced. */
  datatype DataValue = Plain(entries: Entries<Value>) | NotPlain(v: Value)

  /** What calling the data function does. */
  datatype DataCall = Returns(result: DataValue) | Throws(error: Value)

  /** The data option: absent, a function, or a value. */
  datatype DataOption = NoData | DataFn(fn: Value, call: DataCall) | DataVal(d: DataValue)

  datatype VNodeComponentOptions =
    VNodeComponentOptions(propsData: Value, listeners: Value, children: Value, tag: Value)

  /** A placeholder vnode, by identity, with the component options it carries. */
  datatype VNode = VNode(id: nat, componentOptions: VNodeComponentOptions)

  /** `vm.$options`: the declarations the instance is initialised from, and the fields
      that initInternalComponent copies from the parent vnode. */
  datatype InstanceOptions = InstanceOptions(
    props: Option<seq<string>>,         // the normalised props declaration: its keys
    methods: Option<Entries<Value>>,
    data: DataOption,
    computed: Option<Entries<ComputedDef>>,
    watch: Option<Entries<WatchHandler>>,
    el: Value,
    parent: Value,
    parentVnode: Option<VNode>,
    propsData: Value,
    parentListeners: Value,
    renderChildren: Value,
    componentTag: Value,
    render: Value,
    staticRenderFns: Value)

  const NoInstanceOptions := InstanceOptions(None, None, NoData, None, None,
    Undefined, Undefined, None, Undefined, Undefined, Undefined, Undefined, Undefined, Undefined)

  /** JavaScript objects never repeat a key (props, methods, computed properties and a
      plain data object), and each variant holds what `typeof` sends down its branch: a
      function definition or data function is a function, and a data value is not. */
  predicate WellFormed(o: InstanceOptions) {
    && (o.props.Some? ==> Distinct(o.props.value))
    && (o.methods.Some? ==> UniqueKeys(o.methods.value))
    && (o.computed.Some? ==> UniqueKeys(o.computed.value))
    && (o.computed.Some? ==> forall i :: 0 <= i < |o.computed.value| ==> FunctionDefined(o.computed.value[i].1))
    && (o.data.DataFn? ==> IsFunction(o.data.fn))
    && (o.data.DataVal? && o.data.d.NotPlain? ==> !IsFunction(o.data.d.v))
    && DataUnique(o.data)
  }

  /** A plain object given or returned as data never repeats a key. */
  predicate DataUnique(data: DataOption) {
    && (data.DataVal? && data.d.Plain? ==> UniqueKeys(data.d.entries))
    && (data.DataFn? && data.call.Returns? && data.call.result.Plain? ==> UniqueKeys(data.call.result.entries))
  }

  /** A definition taken as a function is one. */
  predicate FunctionDefined(def: ComputedDef) {
    def.ComputedFn? ==> IsFunction(def.fn)
  }

  /** The development-build warnings, by kind and key. */
  datatype Warning =
    | ReservedProp(key: string)
    | DataNotObject
    | DataIsMethod(key: string)
    | DataIsProp(key: string)
    | MissingGetter(key: string)
    | ComputedInData(key: string)
    | ComputedInProps(key: string)
    | MethodNotFunction(key: string)
    | MethodIsProp(key: string)
    | MethodReserved(key: string)
    | NoSetter(key: string)

  /** An error passed to handleError, by the place it was caught. */
  datatype ErrorReport = DataError(error: Value) | ImmediateCallbackError(expression: WatchExpr)

  /** A user function called with the instance as `this`. */
  datatype Call = Call(fn: Value, arg: Value)

  /** The steps of instance initialisation that happen outside this layer. */
  datatype Phase =
    | RenderProxy | Lifecycle | Events | Render | Hook(name: string)
    | Injections | StateInit | Provide | Mount(el: Value)

  /** The environment: build mode, server rendering, and the helpers this layer calls
      without seeing them (validateProp; the reserved-attribute test on a hyphenated key). */
  datatype Env = Env(
    dev: bool,
    isSSR: bool,
    validateProp: (string, bool) -> Value,
    reservedProp: string -> bool)

  // ---------------------------------------------------------------------------
  // The instance's properties as a value: own/inherited members, `_data`, `_props`
  // ---------------------------------------------------------------------------

  datatype Store = Store(members: map<string, Member>, data: DataValue, props: map<string, Value>)

  /** `_data[key]` */
  function DataLookup(d: DataValue, key: string): Value {
    match d
    case Plain(e) => Lookup(e, key)
    case NotPlain(_) => Undefined
  }

  /** `key in _data` */
  predicate DataHas(d: DataValue, key: string) {
    d.Plain? && HasKey(d.entries, key)
  }

  /** `_data` is an object, so that `key in vm.$data` does not throw. */
  predicate DataIsObject(d: DataValue) {
    d.Plain? || IsObject(d.v)
  }

  /** `vm[key] = object`, for the instance's own internal objects (`_watchers`,
      `_props`, `_data`, ...): a plain own property holding that object. */
  function WithOwn(s: Store, key: string): Store {
    s.(members := s.members[key := Field(InstanceObject(key))])
  }

  /** `this[sourceKey][key]` */
  function SourceRead(s: Store, src: Source, key: string): Value {
    match src
    case DataObject => DataLookup(s.data, key)
    case PropsObject => if key in s.props then s.props[key] else Undefined
  }

  /** `this[sourceKey][key] = v` */
  function SourceWrite(s: Store, src: Source, key: string, v: Value): Store {
    match src
    case DataObject =>
      (match s.data
       case Plain(e) => s.(data := Plain(Put(e, key, v)))
       case NotPlain(_) => s)
    case PropsObject => s.(props := s.props[key := v])
  }

  /** Reading `vm[key]` where the property is not a computed accessor. */
  function Peek(s: Store, key: string): Value
    requires key in s.members ==> !s.members[key].Accessor?
  {
    if key !in s.members then Undefined
    else match s.members[key]
      case Field(v) => v
      case ProxyTo(src) => SourceRead(s, src, key)
  }

  /** What an assignment does beyond changing the store. */
  datatype Effect = NoEffect | SetterCall(fn: Value, arg: Value) | SetterWarning(key: string)

  datatype Assigned = Assigned(store: Store, effect: Effect)

  /** `vm[key] = v`: a proxy writes through to its source, an accessor runs its setter,
      anything else becomes an own data property. */
  function Assign(s: Store, key: string, v: Value): Assigned {
    if key !in s.members || s.members[key].Field? then
      Assigned(s.(members := s.members[key := Field(v)]), NoEffect)
    else match s.members[key]
      case ProxyTo(src) => Assigned(SourceWrite(s, src, key, v), NoEffect)
      case Accessor(_, setter) =>
        Assigned(s, match setter
                    case UserSetter(fn) => SetterCall(fn, v)
                    case NoopSetter => NoEffect
                    case WarnSetter(k) => SetterWarning(k))
  }

  function EffectWarnings(e: Effect): seq<Warning> {
    if e.SetterWarning? then [NoSetter(e.key)] else []
  }

  function EffectCalls(e: Effect): seq<Call> {
    if e.SetterCall? then [Call(e.fn, e.arg)] else []
  }

  /** proxy(vm, sourceKey, key) */
  function DefineProxy(s: Store, key: string, src: Source): Store {
    s.(members := s.members[key := ProxyTo(src)])
  }

  /** After proxy(), reading the key reads the source object, and writing it stores into
      the source object, so that a later read returns what was written; the source's
      other keys and the instance's members are left alone. */
  lemma ProxyForwards(s: Store, key: string, src: Source, v: Value)
    requires src == DataObject ==> s.data.Plain?
    ensures Peek(DefineProxy(s, key, src), key) == SourceRead(s, src, key)
    ensures var a := Assign(DefineProxy(s, key, src), key, v);
      && a.effect == NoEffect
      && a.store.members == DefineProxy(s, key, src).members
      && SourceRead(a.store, src, key) == v
      && Peek(a.store, key) == v
      && forall k :: k != key ==> SourceRead(a.store, src, k) == SourceRead(s, src, k)
  {
    var p := DefineProxy(s, key, src);
    var a := Assign(p, key, v);
    if src == DataObject {
      forall k | k != key ensures SourceRead(a.store, src, k) == SourceRead(s, src, k) {
        PutOther(s.data.entries, key, v, k);
      }
    }
  }

  // ---------------------------------------------------------------------------
  // initProps
  // ---------------------------------------------------------------------------

  /** The reserved-attribute warnings of initProps, in enumeration order. */
  function PropWarnings(keys: seq<string>, env: Env): seq<Warning>
    decreases |keys|
  {
    if keys == [] then []
    else
      var key := keys[|keys| - 1];
      PropWarnings(keys[..|keys| - 1], env) + (if env.dev && env.reservedProp(key) then [ReservedProp(key)] else [])
  }

  /** A prop is reported as a reserved attribute exactly when the build warns, it is
      declared, and its hyphenated name is reserved. */
  lemma {:induction false} PropWarningsExact(keys: seq<string>, env: Env, k: string)
    ensures ReservedProp(k) in PropWarnings(keys, env) <==> env.dev && k in keys && env.reservedProp(k)
    decreases |keys|
  {
    if keys != [] {
      var init := keys[..|keys| - 1];
      PropWarningsExact(init, env, k);
      assert keys == init + [keys[|keys| - 1]];
    }
  }

  /** `_props` after initProps: each key holds its validated value. */
  function PropValues(keys: seq<string>, env: Env, observing: bool): map<string, Value>
    decreases |keys|
  {
    if keys == [] then map[]
    else PropValues(keys[..|keys| - 1], env, observing)[keys[|keys| - 1] := env.validateProp(keys[|keys| - 1], observing)]
  }

  /** The members after initProps: a key gets a proxy to `_props` unless it is already
      on the instance when its turn comes. */
  function PropProxies(members: map<string, Member>, keys: seq<string>): map<string, Member>
    decreases |keys|
  {
    if keys == [] then members
    else
      var m := PropProxies(members, keys[..|keys| - 1]);
      var key := keys[|keys| - 1];
      if key in m then m else m[key := ProxyTo(PropsObject)]
  }

  /** Every declared prop, and no other key, is in `_props`, holding its validated value. */
  lemma {:induction false} PropValuesExact(keys: seq<string>, env: Env, observing: bool, k: string)
    ensures k in PropValues(keys, env, observing) <==> k in keys
    ensures k in keys ==> PropValues(keys, env, observing)[k] == env.validateProp(k, observing)
    decreases |keys|
  {
    if keys != [] {
      assert keys == keys[..|keys| - 1] + [keys[|keys| - 1]];
      PropValuesExact(keys[..|keys| - 1], env, observing, k);
    }
  }

  /** initProps never replaces a member: a key already on the instance keeps what it
      was, and every other declared key is proxied to `_props`. */
  lemma {:induction false} PropProxiesExact(members: map<string, Member>, keys: seq<string>, k: string)
    ensures k in PropProxies(members, keys) <==> k in members || k in keys
    ensures k in members ==> PropProxies(members, keys)[k] == members[k]
    ensures k !in members && k in keys ==> PropProxies(members, keys)[k] == ProxyTo(PropsObject)
    decreases |keys|
  {
    if keys != [] {
      assert keys == keys[..|keys| - 1] + [keys[|keys| - 1]];
      PropProxiesExact(members, keys[..|keys| - 1], k);
    }
  }

  // ---------------------------------------------------------------------------
  // initMethods
  // ---------------------------------------------------------------------------

  /** The development-build warnings for one method. */
  function MethodWarnings(key: string, fn: Value, props: Option<seq<string>>, onInstance: bool, dev: bool): seq<Warning> {
    if !dev then []
    else
      (if !IsFunction(fn) then [MethodNotFunction(key)] else [])
      + (if props.Some? && key in props.value then [MethodIsProp(key)] else [])
      + (if onInstance && IsReserved(key) then [MethodReserved(key)] else [])
  }

  /** What initMethods assigns: the bound method, or noop for a non-function. */
  function MethodValue(fn: Value): Value {
    if IsFunction(fn) then Bound(fn) else Noop
  }

  /** The store and the logs a sequence of steps produces, and whether a TypeError has
      escaped one of them, so that no later step runs. */
  datatype Outcome = Outcome(store: Store, warnings: seq<Warning>, calls: seq<Call>, thrown: bool)

  function MethodStep(o: Outcome, key: string, fn: Value, props: Option<seq<string>>, dev: bool): Outcome {
    var w := MethodWarnings(key, fn, props, key in o.store.members, dev);
    var a := Assign(o.store, key, MethodValue(fn));
    Outcome(a.store, o.warnings + w + EffectWarnings(a.effect), o.calls + EffectCalls(a.effect), o.thrown)
  }

  /** initMethods as a function of the store: one step per method, in order. */
  function MethodsOutcome(o: Outcome, methods: Entries<Value>, props: Option<seq<string>>, dev: bool): Outcome
    decreases |methods|
  {
    if methods == [] then o
    else
      MethodStep(MethodsOutcome(o, methods[..|methods| - 1], props, dev), methods[|methods| - 1].0, methods[|methods| - 1].1, props, dev)
  }

  lemma MethodsOutcomeStep(o: Outcome, methods: Entries<Value>, i: nat, props: Option<seq<string>>, dev: bool)
    requires i < |methods|
    ensures MethodsOutcome(o, methods[..i + 1], props, dev)
      == MethodStep(MethodsOutcome(o, methods[..i], props, dev), methods[i].0, methods[i].1, props, dev)
  {
    assert methods[..i + 1][..i] == methods[..i];
  }

  /** One method's step, with the logs written as the method appends to them. */
  lemma MethodStepLogs(o: Outcome, key: string, fn: Value, props: Option<seq<string>>, dev: bool, w0: seq<Warning>, c0: seq<Call>)
    ensures var a := Assign(o.store, key, MethodValue(fn));
      var r := MethodStep(o, key, fn, props, dev);
      && r.store == a.store
      && w0 + r.warnings == w0 + o.warnings + MethodWarnings(key, fn, props, key in o.store.members, dev) + EffectWarnings(a.effect)
      && c0 + r.calls == c0 + o.calls + EffectCalls(a.effect)
  {
    var a := Assign(o.store, key, MethodValue(fn));
    Associative(w0, o.warnings, MethodWarnings(key, fn, props, key in o.store.members, dev), EffectWarnings(a.effect));
  }

  lemma Associative<T>(a: seq<T>, b: seq<T>, c: seq<T>, d: seq<T>)
    ensures a + b + c + d == a + (b + c + d)
  {
  }

  lemma ConcatAssoc<T>(a: seq<T>, b: seq<T>, c: seq<T>)
    ensures a + b + c == a + (b + c)
  {
  }

  /** An assignment changes the instance's members at its own key at most. */
  lemma AssignMembers(s: Store, key: string, v: Value, k: string)
    requires k != key
    ensures var m := Assign(s, key, v).store.members;
      (k in m <==> k in s.members) && (k in m ==> m[k] == s.members[k])
  {
  }

  /** The steps for other keys leave a member as it was, or leave it absent. */
  lemma {:induction false} MethodsKeepOthers(o: Outcome, methods: Entries<Value>, props: Option<seq<string>>, dev: bool, key: string)
    requires !HasKey(methods, key)
    ensures var r := MethodsOutcome(o, methods, props, dev);
      && (key in r.store.members <==> key in o.store.members)
      && (key in r.store.members ==> r.store.members[key] == o.store.members[key])
    decreases |methods|
  {
    if methods != [] {
      var init := methods[..|methods| - 1];
      assert KeysOf(methods) == KeysOf(init) + [methods[|methods| - 1].0];
      MethodsKeepOthers(o, init, props, dev, key);
      AssignMembers(MethodsOutcome(o, init, props, dev).store, methods[|methods| - 1].0, MethodValue(methods[|methods| - 1].1), key);
    }
  }

  /** initMethods never removes a member from the instance. */
  lemma {:induction false} MethodsKeepKeys(o: Outcome, methods: Entries<Value>, props: Option<seq<string>>, dev: bool)
    ensures o.store.members.Keys <= MethodsOutcome(o, methods, props, dev).store.members.Keys
    decreases |methods|
  {
    if methods != [] {
      MethodsKeepKeys(o, methods[..|methods| - 1], props, dev);
    }
  }

  /** A method whose name is free on the instance (or a plain field) ends up on the
      instance as a plain property holding its bound function, or noop when it is not a
      function. */
  lemma {:induction false} MethodInstalled(o: Outcome, methods: Entries<Value>, props: Option<seq<string>>, dev: bool, i: nat)
    requires UniqueKeys(methods) && i < |methods|
    requires methods[i].0 !in o.store.members || o.store.members[methods[i].0].Field?
    ensures var r := MethodsOutcome(o, methods, props, dev);
      && methods[i].0 in r.store.members
      && r.store.members[methods[i].0] == Field(MethodValue(methods[i].1))
      && Peek(r.store, methods[i].0) == MethodValue(methods[i].1)
    decreases |methods|
  {
    var n := |methods|;
    var init := methods[..n - 1];
    var key := methods[i].0;
    if i == n - 1 {
      MethodInstalledLast(o, methods, props, dev);
    } else {
      assert methods[i] == init[i];
      UniqueInit(methods);
      MethodInstalled(o, init, props, dev, i);
      assert key != methods[n - 1].0;
      LaterStepKeeps(o, methods, props, dev, key);
    }
  }

  /** The last method's step leaves the members of other keys as they were. */
  lemma LaterStepKeeps(o: Outcome, methods: Entries<Value>, props: Option<seq<string>>, dev: bool, key: string)
    requires methods != [] && key != methods[|methods| - 1].0
    ensures var mid := MethodsOutcome(o, methods[..|methods| - 1], props, dev).store.members;
      var r := MethodsOutcome(o, methods, props, dev).store.members;
      (key in r <==> key in mid) && (key in r ==> r[key] == mid[key])
  {
    var n := |methods|;
    var mid := MethodsOutcome(o, methods[..n - 1], props, dev);
    AssignMembers(mid.store, methods[n - 1].0, MethodValue(methods[n - 1].1), key);
  }

  /** The last method's step, which no later step overwrites. */
  lemma MethodInstalledLast(o: Outcome, methods: Entries<Value>, props: Option<seq<string>>, dev: bool)
    requires UniqueKeys(methods) && methods != []
    requires var key := methods[|methods| - 1].0;
      key !in o.store.members || o.store.members[key].Field?
    ensures var r := MethodsOutcome(o, methods, props, dev);
      var key := methods[|methods| - 1].0;
      key in r.store.members && r.store.members[key] == Field(MethodValue(methods[|methods| - 1].1))
  {
    var n := |methods|;
    var init := methods[..n - 1];
    var key := methods[n - 1].0;
    PrefixKeys(methods, n - 1);
    MethodsKeepOthers(o, init, props, dev, key);
  }

  /** A method whose name is already proxied to `_props` is assigned through the
      proxy: the bound function replaces the prop's value in `_props`. */
  lemma MethodThroughPropProxy(o: Outcome, key: string, fn: Value, props: Option<seq<string>>, dev: bool)
    requires key in o.store.members && o.store.members[key] == ProxyTo(PropsObject)
    ensures var r := MethodStep(o, key, fn, props, dev);
      && r.store.members == o.store.members
      && r.store.props == o.store.props[key := MethodValue(fn)]
      && Peek(r.store, key) == MethodValue(fn)
  {
  }

  /** Some method named `k` is declared with a value that is not a function. */
  predicate DeclaredNonFunction(methods: Entries<Value>, k: string) {
    exists i :: 0 <= i < |methods| && methods[i].0 == k && !IsFunction(methods[i].1)
  }

  /** One method's step adds the not-a-function, is-a-prop and reserved-name warnings
      for its own key only, and only in a development build. */
  lemma MethodStepClash(o: Outcome, key: string, fn: Value, props: Option<seq<string>>, dev: bool, k: string)
    ensures var r := MethodStep(o, key, fn, props, dev);
      && (MethodNotFunction(k) in r.warnings <==> MethodNotFunction(k) in o.warnings || (dev && k == key && !IsFunction(fn)))
      && (MethodIsProp(k) in r.warnings <==> MethodIsProp(k) in o.warnings || (dev && k == key && props.Some? && k in props.value))
      && (MethodReserved(k) in r.warnings <==>
            MethodReserved(k) in o.warnings || (dev && k == key && key in o.store.members && IsReserved(k)))
  {
    var a := Assign(o.store, key, MethodValue(fn));
    MethodWarningsKinds(key, fn, props, key in o.store.members, dev, k);
    EffectWarningsKind(a.effect);
  }

  /** The warnings of one method, kind by kind. */
  lemma MethodWarningsKinds(key: string, fn: Value, props: Option<seq<string>>, onInstance: bool, dev: bool, k: string)
    ensures var w := MethodWarnings(key, fn, props, onInstance, dev);
      && (MethodNotFunction(k) in w <==> dev && k == key && !IsFunction(fn))
      && (MethodIsProp(k) in w <==> dev && k == key && props.Some? && k in props.value)
      && (MethodReserved(k) in w <==> dev && k == key && onInstance && IsReserved(k))
  {
  }

  /** An assignment's only warning is about a missing setter. */
  lemma EffectWarningsKind(e: Effect)
    ensures forall x :: x in EffectWarnings(e) ==> x.NoSetter?
  {
  }

  /** initMethods reports a method as not a function exactly when a development build
      finds it declared with a value that is not one, and as a prop exactly when a
      development build finds its name among the declared props. */
  lemma {:induction false} MethodClash(o: Outcome, methods: Entries<Value>, props: Option<seq<string>>, dev: bool, k: string)
    ensures var r := MethodsOutcome(o, methods, props, dev);
      MethodNotFunction(k) in r.warnings <==> MethodNotFunction(k) in o.warnings || (dev && DeclaredNonFunction(methods, k))
    ensures var r := MethodsOutcome(o, methods, props, dev);
      MethodIsProp(k) in r.warnings <==> MethodIsProp(k) in o.warnings || (dev && HasKey(methods, k) && props.Some? && k in props.value)
    decreases |methods|
  {
    if methods != [] {
      var n := |methods| - 1;
      var init := methods[..n];
      MethodClash(o, init, props, dev, k);
      MethodStepClash(MethodsOutcome(o, init, props, dev), methods[n].0, methods[n].1, props, dev, k);
      MethodsSplit(methods, k);
    }
  }

  /** With unique method names, initMethods reports a method as clashing with an
      existing instance method exactly when a development build finds its reserved name
      already on the instance before initMethods started. */
  lemma {:induction false} MethodReservedReported(o: Outcome, methods: Entries<Value>, props: Option<seq<string>>, dev: bool, k: string)
    requires UniqueKeys(methods)
    ensures var r := MethodsOutcome(o, methods, props, dev);
      MethodReserved(k) in r.warnings <==>
        MethodReserved(k) in o.warnings || (dev && HasKey(methods, k) && k in o.store.members && IsReserved(k))
    decreases |methods|
  {
    if methods != [] {
      var n := |methods| - 1;
      var init := methods[..n];
      var key := methods[n].0;
      UniqueInit(methods);
      MethodReservedReported(o, init, props, dev, k);
      PrefixKeys(methods, n);
      MethodsKeepOthers(o, init, props, dev, key);
      MethodStepClash(MethodsOutcome(o, init, props, dev), key, methods[n].1, props, dev, k);
      MethodsSplit(methods, k);
    }
  }

  /** The two conditions of MethodClash, split into the methods before the last and
      the last one. */
  lemma MethodsSplit(methods: Entries<Value>, k: string)
    requires methods != []
    ensures var n := |methods| - 1;
      && (DeclaredNonFunction(methods, k) <==> DeclaredNonFunction(methods[..n], k) || (methods[n].0 == k && !IsFunction(methods[n].1)))
      && (HasKey(methods, k) <==> HasKey(methods[..n], k) || methods[n].0 == k)
  {
    var n := |methods| - 1;
    forall j | 0 <= j < n ensures methods[..n][j] == methods[j] { }
    PrefixKeys(methods, n);
    assert methods[..n + 1] == methods;
  }

  // ---------------------------------------------------------------------------
  // initData
  // ---------------------------------------------------------------------------

  /** `opts.data` is truthy. */
  predicate DataTruthy(d: DataOption) {
    match d
    case NoData => false
    case DataFn(_, _) => true
    case DataVal(v) => v.Plain? || Truthy(v.v)
  }

  /** What `_data` ends up as: the data function's result, `{}` when it throws, and
      `{}` in place of a falsy data value. */
  function ResolvedData(d: DataOption): (r: DataValue)
    ensures !DataTruthy(d) ==> r == Plain([])
    ensures d.DataFn? && d.call.Throws? ==> r == Plain([])
    ensures d.DataVal? && DataTruthy(d) ==> r == d.d
  {
    match d
    case DataFn(_, call) => if call.Returns? then call.result else Plain([])
    case DataVal(v) => if v.Plain? || Truthy(v.v) then v else Plain([])
    case NoData => Plain([])
  }

  /** The warnings for one data key. */
  function DataKeyWarnings(key: string, methods: Option<Entries<Value>>, props: Option<seq<string>>, dev: bool): seq<Warning> {
    (if dev && methods.Some? && HasKey(methods.value, key) then [DataIsMethod(key)] else [])
    + (if dev && props.Some? && key in props.value then [DataIsProp(key)] else [])
  }

  /** The warnings of initData: its loop runs from the last key to the first. */
  function DataWarnings(keys: seq<string>, methods: Option<Entries<Value>>, props: Option<seq<string>>, dev: bool): seq<Warning>
    decreases |keys|
  {
    if keys == [] then []
    else DataWarnings(keys[1..], methods, props, dev) + DataKeyWarnings(keys[0], methods, props, dev)
  }

  /** A data key is proxied unless it is a declared prop or starts with `_` or `$`. */
  predicate DataProxied(key: string, props: Option<seq<string>>) {
    !(props.Some? && key in props.value) && !IsReserved(key)
  }

  /** The members after initData's loop, which visits the keys from last to first. */
  function DataProxies(members: map<string, Member>, keys: seq<string>, props: Option<seq<string>>): map<string, Member>
    decreases |keys|
  {
    if keys == [] then members
    else
      var m := DataProxies(members, keys[1..], props);
      if DataProxied(keys[0], props) then m[keys[0] := ProxyTo(DataObject)] else m
  }

  /** Every data key that is neither a prop nor reserved is proxied to `_data`, replacing
      whatever the instance had under that name; every other member is left alone. */
  lemma {:induction false} DataProxiesExact(members: map<string, Member>, keys: seq<string>, props: Option<seq<string>>, k: string)
    ensures k in DataProxies(members, keys, props) <==> k in members || (k in keys && DataProxied(k, props))
    ensures k in keys && DataProxied(k, props) ==> DataProxies(members, keys, props)[k] == ProxyTo(DataObject)
    ensures !(k in keys && DataProxied(k, props)) && k in members ==> DataProxies(members, keys, props)[k] == members[k]
    decreases |keys|
  {
    if keys != [] {
      assert keys == [keys[0]] + keys[1..];
      DataProxiesExact(members, keys[1..], props, k);
    }
  }

  /** Visiting from last to first: the warnings for a later key come before those for an earlier one. */
  lemma {:induction false} DataWarningsReversed(a: seq<string>, b: seq<string>, methods: Option<Entries<Value>>, props: Option<seq<string>>, dev: bool)
    ensures DataWarnings(a + b, methods, props, dev) == DataWarnings(b, methods, props, dev) + DataWarnings(a, methods, props, dev)
    decreases |a|
  {
    if a != [] {
      assert (a + b)[1..] == a[1..] + b && (a + b)[0] == a[0];
      DataWarningsReversed(a[1..], b, methods, props, dev);
    } else {
      assert a + b == b;
    }
  }

  /** A data key is reported as clashing with a prop exactly when it is a declared prop (development build). */
  lemma {:induction false} DataPropClash(keys: seq<string>, methods: Option<Entries<Value>>, props: Option<seq<string>>, dev: bool, k: string)
    ensures DataIsProp(k) in DataWarnings(keys, methods, props, dev) <==> dev && k in keys && props.Some? && k in props.value
    ensures DataIsMethod(k) in DataWarnings(keys, methods, props, dev) <==> dev && k in keys && methods.Some? && HasKey(methods.value, k)
    decreases |keys|
  {
    if keys != [] {
      DataPropClash(keys[1..], methods, props, dev, k);
      assert keys == [keys[0]] + keys[1..];
    }
  }

  // ---------------------------------------------------------------------------
  // initComputed and defineComputed
  // ---------------------------------------------------------------------------

  /** `typeof userDef === 'function' ? userDef : userDef.get`; a null or undefined
      definition throws there instead, so its getter is never used. */
  function GetterOf(def: ComputedDef): Value {
    match def
    case ComputedFn(fn) => fn
    case ComputedObject(g, _, _) => g
    case ComputedNullish => Undefined
  }

  /** `userDef.set || noop` is not noop itself. */
  predicate HasSetter(def: ComputedDef) {
    def.ComputedObject? && Truthy(def.setter) && def.setter != Noop
  }

  /** `Object.defineProperty` refuses a `set` that is not a function: `userDef.set` is
      kept when truthy, so a truthy value that cannot be called makes defineComputed
      throw a TypeError, in every build. */
  predicate SetterThrows(def: ComputedDef) {
    def.ComputedObject? && Truthy(def.setter) && !IsFunction(def.setter)
  }

  /** The getter and setter defineComputed installs. */
  function SelectAccessor(key: string, def: ComputedDef, shouldCache: bool, dev: bool): (m: Member)
    requires !def.ComputedNullish?
    ensures m.Accessor?
    ensures m.getter.CachedGetter? <==> shouldCache && (def.ComputedFn? || (Truthy(def.getter) && def.cache != Bool(false)))
    ensures m.getter.CachedGetter? ==> m.getter.key == key
    ensures m.getter.NoopGetter? <==> def.ComputedObject? && !Truthy(def.getter)
    ensures m.getter.Invoker? ==> m.getter.fn == GetterOf(def)
    ensures m.setter.UserSetter? <==> HasSetter(def)
    ensures m.setter.UserSetter? ==> m.setter.fn == def.setter
    ensures m.setter.WarnSetter? <==> dev && !HasSetter(def)
    ensures m.setter.WarnSetter? ==> m.setter.key == key
  {
    var getter :=
      if def.ComputedFn? then (if shouldCache then CachedGetter(key) else Invoker(def.fn))
      else if Truthy(def.getter) then (if shouldCache && def.cache != Bool(false) then CachedGetter(key) else Invoker(def.getter))
      else NoopGetter;
    var setter := if HasSetter(def) then UserSetter(def.setter) else NoopSetter;
    Accessor(getter, if dev && setter.NoopSetter? then WarnSetter(key) else setter)
  }

  /** In a development build, the clash check on a key already on the instance evaluates
      `key in vm.$data`, which throws a TypeError when `_data` is not an object. */
  predicate InDataThrows(onInstance: bool, data: DataValue, dev: bool) {
    dev && onInstance && !DataIsObject(data)
  }

  /** The warnings for one computed key; `onInstance` is `key in vm` before it is defined. */
  function ComputedKeyWarnings(key: string, def: ComputedDef, onInstance: bool, data: DataValue, props: Option<seq<string>>, dev: bool): seq<Warning> {
    (if dev && IsNullish(GetterOf(def)) then [MissingGetter(key)] else [])
    + (if dev && onInstance && DataIsObject(data) then
         (if DataHas(data, key) then [ComputedInData(key)]
          else if props.Some? && key in props.value then [ComputedInProps(key)]
          else [])
       else [])
  }

  /** One key of initComputed: its warnings, and an accessor unless the key is already
      on the instance. A null or undefined definition throws before either; a setter
      that is not a function makes defineComputed throw instead of defining the key.
      Nothing happens once an earlier key has thrown. */
  function ComputedStep(o: Outcome, key: string, def: ComputedDef, props: Option<seq<string>>, shouldCache: bool, dev: bool): Outcome {
    if o.thrown then o
    else if def.ComputedNullish? then o.(thrown := true)
    else
      var onInstance := key in o.store.members;
      var defined := !onInstance && !SetterThrows(def);
      var members := if defined then o.store.members[key := SelectAccessor(key, def, shouldCache, dev)] else o.store.members;
      Outcome(o.store.(members := members),
              o.warnings + ComputedKeyWarnings(key, def, onInstance, o.store.data, props, dev),
              o.calls,
              InDataThrows(onInstance, o.store.data, dev) || (!onInstance && SetterThrows(def)))
  }

  /** initComputed as a function of the store: one step per key, in order. */
  function ComputedOutcome(o: Outcome, computed: Entries<ComputedDef>, props: Option<seq<string>>, shouldCache: bool, dev: bool): Outcome
    decreases |computed|
  {
    if computed == [] then o
    else
      var n := |computed| - 1;
      ComputedStep(ComputedOutcome(o, computed[..n], props, shouldCache, dev), computed[n].0, computed[n].1, props, shouldCache, dev)
  }

  lemma ComputedOutcomeStep(o: Outcome, computed: Entries<ComputedDef>, i: nat, props: Option<seq<string>>, shouldCache: bool, dev: bool)
    requires i < |computed|
    ensures ComputedOutcome(o, computed[..i + 1], props, shouldCache, dev)
      == ComputedStep(ComputedOutcome(o, computed[..i], props, shouldCache, dev), computed[i].0, computed[i].1, props, shouldCache, dev)
  {
    assert computed[..i + 1][..i] == computed[..i];
  }

  /** One step of initComputed touches only the member named by its key, and only when
      that key is not on the instance yet, its definition is not null or undefined, its
      setter is a function or absent, and no earlier key has thrown. */
  lemma ComputedStepMember(o: Outcome, key: string, def: ComputedDef, props: Option<seq<string>>, shouldCache: bool, dev: bool, k: string)
    ensures var r := ComputedStep(o, key, def, props, shouldCache, dev);
      && r.store.data == o.store.data && r.store.props == o.store.props
      && (k in r.store.members <==> k in o.store.members || (k == key && !o.thrown && !def.ComputedNullish? && !SetterThrows(def)))
      && (k in o.store.members ==> r.store.members[k] == o.store.members[k])
      && (k !in o.store.members && k == key && !o.thrown && !def.ComputedNullish? && !SetterThrows(def) ==>
            r.store.members[k] == SelectAccessor(key, def, shouldCache, dev))
      && r.warnings == o.warnings +
           (if o.thrown || def.ComputedNullish? then [] else ComputedKeyWarnings(key, def, key in o.store.members, o.store.data, props, dev))
      && r.thrown == (o.thrown || def.ComputedNullish? || InDataThrows(key in o.store.members, o.store.data, dev)
                      || (key !in o.store.members && SetterThrows(def)))
  {
  }

  /** A member already on the instance survives a step of initComputed unchanged. */
  lemma ComputedStepKeeps(o: Outcome, key: string, def: ComputedDef, props: Option<seq<string>>, shouldCache: bool, dev: bool, k: string)
    requires k in o.store.members
    ensures var r := ComputedStep(o, key, def, props, shouldCache, dev);
      k in r.store.members && r.store.members[k] == o.store.members[k]
  {
  }

  /** initComputed changes only members named by its keys; `_data` and `_props` stay. */
  lemma {:induction false} ComputedKeepOthers(o: Outcome, computed: Entries<ComputedDef>, props: Option<seq<string>>, shouldCache: bool, dev: bool, key: string)
    ensures var r := ComputedOutcome(o, computed, props, shouldCache, dev);
      r.store.data == o.store.data && r.store.props == o.store.props
    ensures var r := ComputedOutcome(o, computed, props, shouldCache, dev);
      key in o.store.members ==> key in r.store.members && r.store.members[key] == o.store.members[key]
    ensures var r := ComputedOutcome(o, computed, props, shouldCache, dev);
      !HasKey(computed, key) ==> (key in r.store.members <==> key in o.store.members)
    decreases |computed|
  {
    if computed != [] {
      var n := |computed| - 1;
      var init := computed[..n];
      assert KeysOf(computed) == KeysOf(init) + [computed[n].0];
      ComputedKeepOthers(o, init, props, shouldCache, dev, key);
      ComputedStepMember(ComputedOutcome(o, init, props, shouldCache, dev), computed[n].0, computed[n].1, props, shouldCache, dev, key);
    }
  }

  /** Once a clash check has thrown, no later key is handled. */
  lemma {:induction false} ComputedThrownStays(o: Outcome, computed: Entries<ComputedDef>, props: Option<seq<string>>, shouldCache: bool, dev: bool, i: nat)
    requires i <= |computed| && ComputedOutcome(o, computed[..i], props, shouldCache, dev).thrown
    ensures ComputedOutcome(o, computed, props, shouldCache, dev) == ComputedOutcome(o, computed[..i], props, shouldCache, dev)
    decreases |computed|
  {
    if i < |computed| {
      var n := |computed| - 1;
      assert computed[..n][..i] == computed[..i];
      ComputedThrownStays(o, computed[..n], props, shouldCache, dev, i);
    } else {
      assert computed[..i] == computed;
    }
  }

  /** How many keys initComputed makes a watcher for: all of them, unless a key throws;
      then the keys before it, and that key too unless its definition is null or undefined. */
  function ComputedReached(o: Outcome, computed: Entries<ComputedDef>, props: Option<seq<string>>, shouldCache: bool, dev: bool): (n: nat)
    ensures n <= |computed|
    decreases |computed|
  {
    if computed == [] then 0
    else
      var m := |computed| - 1;
      if ComputedOutcome(o, computed[..m], props, shouldCache, dev).thrown then ComputedReached(o, computed[..m], props, shouldCache, dev)
      else if computed[m].1.ComputedNullish? then m
      else |computed|
  }

  /** Without a throw, every key is handled. */
  lemma ComputedReachedAll(o: Outcome, computed: Entries<ComputedDef>, props: Option<seq<string>>, shouldCache: bool, dev: bool)
    requires !ComputedOutcome(o, computed, props, shouldCache, dev).thrown
    ensures ComputedReached(o, computed, props, shouldCache, dev) == |computed|
  {
  }

  /** A throw at the i-th key ends initComputed with a watcher for each key before it,
      and for the i-th too unless its definition is null or undefined. */
  lemma {:induction false} ComputedReachedAt(o: Outcome, computed: Entries<ComputedDef>, props: Option<seq<string>>, shouldCache: bool, dev: bool, i: nat)
    requires i < |computed|
    requires !ComputedOutcome(o, computed[..i], props, shouldCache, dev).thrown
    requires ComputedOutcome(o, computed[..i + 1], props, shouldCache, dev).thrown
    ensures ComputedReached(o, computed, props, shouldCache, dev) == if computed[i].1.ComputedNullish? then i else i + 1
    decreases |computed|
  {
    var m := |computed| - 1;
    if m > i {
      var init := computed[..m];
      assert init[..i] == computed[..i] && init[..i + 1] == computed[..i + 1] && init[i] == computed[i];
      ComputedThrownStays(o, init, props, shouldCache, dev, i + 1);
      ComputedReachedAt(o, init, props, shouldCache, dev, i);
    } else {
      assert computed[..m] == computed[..i];
    }
  }

  /** The watchers initComputed's loop has made when it stops after i keys: one per key,
      but none for a last key that threw on a null or undefined definition. */
  function Made(computed: Entries<ComputedDef>, i: nat, threw: bool): nat
    requires i <= |computed|
  {
    if threw && 0 < i && computed[i - 1].1.ComputedNullish? then i - 1 else i
  }

  /** Where initComputed's loop stops, at the end or just after the key that threw, is
      where ComputedOutcome and ComputedReached stop too. */
  lemma ComputedLoopEnd(o: Outcome, computed: Entries<ComputedDef>, props: Option<seq<string>>, shouldCache: bool, dev: bool, i: nat, threw: bool)
    requires i <= |computed| && threw == ComputedOutcome(o, computed[..i], props, shouldCache, dev).thrown
    requires !threw ==> i == |computed|
    requires threw ==> 0 < i && !ComputedOutcome(o, computed[..i - 1], props, shouldCache, dev).thrown
    ensures ComputedOutcome(o, computed, props, shouldCache, dev) == ComputedOutcome(o, computed[..i], props, shouldCache, dev)
    ensures ComputedReached(o, computed, props, shouldCache, dev) == Made(computed, i, threw)
  {
    if threw {
      ComputedThrownStays(o, computed, props, shouldCache, dev, i);
      assert computed[..i - 1 + 1] == computed[..i];
      ComputedReachedAt(o, computed, props, shouldCache, dev, i - 1);
    } else {
      assert computed[..i] == computed;
      ComputedReachedAll(o, computed, props, shouldCache, dev);
    }
  }

  /** When initComputed's loop has thrown after i keys, the i-th key threw. */
  ghost predicate ThrewLast(o: Outcome, computed: Entries<ComputedDef>, props: Option<seq<string>>, shouldCache: bool, dev: bool, i: nat, threw: bool) {
    threw ==> 0 < i <= |computed| + 1 && !ComputedOutcome(o, computed[..i - 1], props, shouldCache, dev).thrown
  }

  /** initComputed's loop, stopped after i keys, has produced what ComputedOutcome and
      ComputedReached describe for all the keys. */
  lemma ComputedLoopDone(o: Outcome, computed: Entries<ComputedDef>, props: Option<seq<string>>, env: Env,
                         w0: seq<Warning>, ws0: seq<Watcher>, i: nat, threw: bool, created: seq<Watcher>,
                         cw: map<string, Watcher>, store: Store, warnings: seq<Warning>, watchers: seq<Watcher>)
    requires ComputedLoopAt(o, computed, props, env, w0, ws0, i, threw, created, cw, store, warnings, watchers)
    requires !(i < |computed| && !threw)
    ensures var r := ComputedOutcome(o, computed, props, !env.isSSR, env.dev);
      && store == r.store && warnings == w0 + r.warnings && threw == r.thrown
      && WatchersProgress(cw, computed, ComputedReached(o, computed, props, !env.isSSR, env.dev), env, created)
    ensures watchers == ws0 + created && Distinct(created)
  {
    ComputedLoopEnd(o, computed, props, !env.isSSR, env.dev, i, threw);
  }

  /** Some computed key is among `members`. */
  predicate SomeOnInstance(computed: Entries<ComputedDef>, members: map<string, Member>) {
    exists j :: 0 <= j < |computed| && computed[j].0 in members
  }

  /** Some computed definition is null or undefined. */
  predicate SomeNullish(computed: Entries<ComputedDef>) {
    exists j :: 0 <= j < |computed| && computed[j].1.ComputedNullish?
  }

  /** Some computed key not on the instance has a setter that is not a function. */
  predicate SomeSetterThrows(computed: Entries<ComputedDef>, members: map<string, Member>) {
    exists j :: 0 <= j < |computed| && computed[j].0 !in members && SetterThrows(computed[j].1)
  }

  /** Some computed definition has a setter that is not a function. */
  predicate SomeUncallableSetter(computed: Entries<ComputedDef>) {
    exists j :: 0 <= j < |computed| && SetterThrows(computed[j].1)
  }

  /** What can make initComputed throw, whatever is on the instance: a null or undefined
      definition, a setter that is not a function, or, in a development build, `_data`
      that is not an object. */
  predicate ComputedMayThrow(computed: Entries<ComputedDef>, data: DataValue, dev: bool) {
    SomeNullish(computed) || SomeUncallableSetter(computed) || (dev && !DataIsObject(data))
  }

  /** initComputed throws only for one of the reasons ComputedMayThrow names. */
  lemma ComputedThrowsOnly(o: Outcome, computed: Entries<ComputedDef>, props: Option<seq<string>>, shouldCache: bool, dev: bool)
    requires UniqueKeys(computed) && !o.thrown
    ensures ComputedOutcome(o, computed, props, shouldCache, dev).thrown ==> ComputedMayThrow(computed, o.store.data, dev)
  {
    ComputedThrowsExact(o, computed, props, shouldCache, dev);
    if SomeSetterThrows(computed, o.store.members) {
      var j :| 0 <= j < |computed| && computed[j].0 !in o.store.members && SetterThrows(computed[j].1);
      assert SomeUncallableSetter(computed);
    }
  }

  /** initComputed throws exactly when a definition is null or undefined, when a key
      not on the instance has a setter that is not a function, or when, in a
      development build with `_data` not an object, one of its keys is already on the
      instance. */
  lemma {:induction false} ComputedThrowsExact(o: Outcome, computed: Entries<ComputedDef>, props: Option<seq<string>>, shouldCache: bool, dev: bool)
    requires UniqueKeys(computed) && !o.thrown
    ensures ComputedOutcome(o, computed, props, shouldCache, dev).thrown <==>
      || SomeNullish(computed)
      || SomeSetterThrows(computed, o.store.members)
      || (dev && !DataIsObject(o.store.data) && SomeOnInstance(computed, o.store.members))
    decreases |computed|
  {
    if computed != [] {
      var n := |computed| - 1;
      var init := computed[..n];
      var key := computed[n].0;
      UniqueInit(computed);
      ComputedThrowsExact(o, init, props, shouldCache, dev);
      PrefixKeys(computed, n);
      ComputedKeepOthers(o, init, props, shouldCache, dev, key);
      var mid := ComputedOutcome(o, init, props, shouldCache, dev);
      ComputedStepMember(mid, key, computed[n].1, props, shouldCache, dev, key);
      ComputedThrowsSplit(computed, o.store.members);
    }
  }

  /** The three conditions of ComputedThrowsExact, split into the keys before the last
      and the last one. */
  lemma ComputedThrowsSplit(computed: Entries<ComputedDef>, members: map<string, Member>)
    requires computed != []
    ensures var n := |computed| - 1;
      && (SomeNullish(computed) <==> SomeNullish(computed[..n]) || computed[n].1.ComputedNullish?)
      && (SomeOnInstance(computed, members) <==> SomeOnInstance(computed[..n], members) || computed[n].0 in members)
      && (SomeSetterThrows(computed, members) <==>
            SomeSetterThrows(computed[..n], members) || (computed[n].0 !in members && SetterThrows(computed[n].1)))
  {
    var n := |computed| - 1;
    forall j | 0 <= j < n ensures computed[..n][j] == computed[j] { }
  }

  /** The clash warnings of one computed key. */
  lemma ComputedKeyClash(key: string, def: ComputedDef, onInstance: bool, data: DataValue, props: Option<seq<string>>, dev: bool, k: string)
    ensures var w := ComputedKeyWarnings(key, def, onInstance, data, props, dev);
      && (ComputedInData(k) in w <==> dev && k == key && onInstance && DataHas(data, k))
      && (ComputedInProps(k) in w <==>
            dev && k == key && onInstance && DataIsObject(data) && !DataHas(data, k) && props.Some? && k in props.value)
  {
  }

  /** A computed key initComputed reaches that is already on the instance is reported as
      data exactly when `_data` has it, and as a prop exactly when `_data` is an object
      without it and the key is a declared prop (development build). */
  lemma {:induction false} ComputedClashReported(o: Outcome, computed: Entries<ComputedDef>, props: Option<seq<string>>, shouldCache: bool, dev: bool, k: string)
    requires UniqueKeys(computed) && !o.thrown
    ensures var r := ComputedOutcome(o, computed, props, shouldCache, dev);
      var reached := computed[..ComputedReached(o, computed, props, shouldCache, dev)];
      ComputedInData(k) in r.warnings <==>
        (ComputedInData(k) in o.warnings || (dev && HasKey(reached, k) && k in o.store.members && DataHas(o.store.data, k)))
    ensures var r := ComputedOutcome(o, computed, props, shouldCache, dev);
      var reached := computed[..ComputedReached(o, computed, props, shouldCache, dev)];
      ComputedInProps(k) in r.warnings <==>
        (ComputedInProps(k) in o.warnings
         || (dev && DataIsObject(o.store.data) && HasKey(reached, k) && k in o.store.members
             && !DataHas(o.store.data, k) && props.Some? && k in props.value))
    decreases |computed|
  {
    if computed != [] {
      var n := |computed| - 1;
      var init := computed[..n];
      UniqueInit(computed);
      ComputedClashReported(o, init, props, shouldCache, dev, k);
      var mid := ComputedOutcome(o, init, props, shouldCache, dev);
      var ri := ComputedReached(o, init, props, shouldCache, dev);
      if mid.thrown {
        assert computed[..ri] == init[..ri];
      } else {
        ComputedReachedAll(o, init, props, shouldCache, dev);
        assert init[..n] == init;
        if !computed[n].1.ComputedNullish? {
          ComputedClashStep(o, computed, props, shouldCache, dev, k);
          PrefixKeys(computed, n);
          assert computed[..n + 1] == computed[..|computed|];
        }
      }
    }
  }

  /** The last key's step of ComputedClashReported, when no earlier key threw. */
  lemma ComputedClashStep(o: Outcome, computed: Entries<ComputedDef>, props: Option<seq<string>>, shouldCache: bool, dev: bool, k: string)
    requires UniqueKeys(computed) && computed != [] && !computed[|computed| - 1].1.ComputedNullish?
    requires !ComputedOutcome(o, computed[..|computed| - 1], props, shouldCache, dev).thrown
    ensures var n := |computed| - 1;
      var mid := ComputedOutcome(o, computed[..n], props, shouldCache, dev);
      var r := ComputedOutcome(o, computed, props, shouldCache, dev);
      && ComputedReached(o, computed, props, shouldCache, dev) == |computed|
      && (ComputedInData(k) in r.warnings <==>
            ComputedInData(k) in mid.warnings || (dev && k == computed[n].0 && k in o.store.members && DataHas(o.store.data, k)))
      && (ComputedInProps(k) in r.warnings <==>
            ComputedInProps(k) in mid.warnings
            || (dev && DataIsObject(o.store.data) && k == computed[n].0 && k in o.store.members
                && !DataHas(o.store.data, k) && props.Some? && k in props.value))
  {
    var n := |computed| - 1;
    var key := computed[n].0;
    var mid := ComputedOutcome(o, computed[..n], props, shouldCache, dev);
    PrefixKeys(computed, n);
    ComputedKeepOthers(o, computed[..n], props, shouldCache, dev, key);
    ComputedStepMember(mid, key, computed[n].1, props, shouldCache, dev, key);
    ComputedKeyClash(key, computed[n].1, key in mid.store.members, mid.store.data, props, dev, k);
  }

  /** The getter a computed watcher runs: `getter || noop`. */
  function WatcherGetter(def: ComputedDef): Value {
    if Truthy(GetterOf(def)) then GetterOf(def) else Noop
  }

  /** A computed key already on the instance keeps what it had. Any other key that
      initComputed reaches gets the accessor defineComputed selects for its definition,
      unless its setter is not a function: then defineComputed throws and the key stays
      undefined. */
  lemma ComputedDefined(o: Outcome, computed: Entries<ComputedDef>, props: Option<seq<string>>, shouldCache: bool, dev: bool, i: nat)
    requires UniqueKeys(computed) && i < |computed| && !computed[i].1.ComputedNullish?
    requires !ComputedOutcome(o, computed[..i], props, shouldCache, dev).thrown
    ensures var key, def := computed[i].0, computed[i].1;
      var r := ComputedOutcome(o, computed, props, shouldCache, dev);
      && (key in r.store.members <==> key in o.store.members || !SetterThrows(def))
      && (key in o.store.members ==> r.store.members[key] == o.store.members[key])
      && (key !in o.store.members && !SetterThrows(def) ==> r.store.members[key] == SelectAccessor(key, def, shouldCache, dev))
  {
    var upto := computed[..i + 1];
    assert upto[..i] == computed[..i] && upto[i] == computed[i];
    UniquePrefix(computed, i + 1);
    ComputedDefinedLast(o, upto, props, shouldCache, dev);
    var key := computed[i].0;
    if key in ComputedOutcome(o, upto, props, shouldCache, dev).store.members {
      ComputedKeepsFrom(o, computed, i + 1, props, shouldCache, dev, key);
    } else {
      ComputedThrownStays(o, computed, props, shouldCache, dev, i + 1);
    }
  }

  /** A member on the instance after the first j computed keys stays as it is through
      the remaining ones. */
  lemma {:induction false} ComputedKeepsFrom(o: Outcome, computed: Entries<ComputedDef>, j: nat, props: Option<seq<string>>, shouldCache: bool, dev: bool, k: string)
    requires j <= |computed| && k in ComputedOutcome(o, computed[..j], props, shouldCache, dev).store.members
    ensures var r := ComputedOutcome(o, computed, props, shouldCache, dev);
      k in r.store.members && r.store.members[k] == ComputedOutcome(o, computed[..j], props, shouldCache, dev).store.members[k]
    decreases |computed|
  {
    if j == |computed| {
      assert computed[..j] == computed;
    } else {
      var n := |computed| - 1;
      assert computed[..n][..j] == computed[..j];
      ComputedKeepsFrom(o, computed[..n], j, props, shouldCache, dev, k);
      ComputedStepKeeps(ComputedOutcome(o, computed[..n], props, shouldCache, dev), computed[n].0, computed[n].1, props, shouldCache, dev, k);
    }
  }

  /** The last computed key, when reached, is defined as ComputedDefined says. */
  lemma ComputedDefinedLast(o: Outcome, computed: Entries<ComputedDef>, props: Option<seq<string>>, shouldCache: bool, dev: bool)
    requires UniqueKeys(computed) && computed != [] && !computed[|computed| - 1].1.ComputedNullish?
    requires !ComputedOutcome(o, computed[..|computed| - 1], props, shouldCache, dev).thrown
    ensures var key, def := computed[|computed| - 1].0, computed[|computed| - 1].1;
      var r := ComputedOutcome(o, computed, props, shouldCache, dev);
      && (key in r.store.members <==> key in o.store.members || !SetterThrows(def))
      && (key in o.store.members ==> r.store.members[key] == o.store.members[key])
      && (key !in o.store.members && !SetterThrows(def) ==> r.store.members[key] == SelectAccessor(key, def, shouldCache, dev))
      && (key !in r.store.members ==> r.thrown)
  {
    var n := |computed| - 1;
    var key := computed[n].0;
    PrefixKeys(computed, n);
    ComputedKeepOthers(o, computed[..n], props, shouldCache, dev, key);
    ComputedStepMember(ComputedOutcome(o, computed[..n], props, shouldCache, dev), key, computed[n].1, props, shouldCache, dev, key);
  }

  /** A computed key missing a getter is reported once initComputed reaches it. */
  lemma MissingGetterReported(o: Outcome, computed: Entries<ComputedDef>, props: Option<seq<string>>, shouldCache: bool, dev: bool, i: nat)
    requires i < |computed| && dev && !computed[i].1.ComputedNullish? && IsNullish(GetterOf(computed[i].1))
    requires !ComputedOutcome(o, computed[..i], props, shouldCache, dev).thrown
    ensures MissingGetter(computed[i].0) in ComputedOutcome(o, computed, props, shouldCache, dev).warnings
  {
    var upto := computed[..i + 1];
    assert upto[..i] == computed[..i] && upto[i] == computed[i];
    assert MissingGetter(computed[i].0) in ComputedOutcome(o, upto, props, shouldCache, dev).warnings;
    ComputedWarningsKept(o, computed, i + 1, props, shouldCache, dev, MissingGetter(computed[i].0));
  }

  /** A warning given for the first j computed keys is still there after the rest. */
  lemma {:induction false} ComputedWarningsKept(o: Outcome, computed: Entries<ComputedDef>, j: nat, props: Option<seq<string>>, shouldCache: bool, dev: bool, w: Warning)
    requires j <= |computed| && w in ComputedOutcome(o, computed[..j], props, shouldCache, dev).warnings
    ensures w in ComputedOutcome(o, computed, props, shouldCache, dev).warnings
    decreases |computed|
  {
    if j == |computed| {
      assert computed[..j] == computed;
    } else {
      var n := |computed| - 1;
      assert computed[..n][..j] == computed[..j];
      ComputedWarningsKept(o, computed[..n], j, props, shouldCache, dev, w);
    }
  }


  // ---------------------------------------------------------------------------
  // initWatch, createWatcher and $watch
  // ---------------------------------------------------------------------------

  /** The (key, handler) pairs initWatch passes to createWatcher, in order: one per array
      element, or the handler itself. */
  function ExpandOne(key: string, h: WatchHandler): seq<(string, WatchHandler)> {
    if h.HandlerArray? then seq(|h.items|, i requires 0 <= i < |h.items| => (key, h.items[i]))
    else [(key, h)]
  }

  function ExpandWatch(watch: Entries<WatchHandler>): seq<(string, WatchHandler)>
    decreases |watch|
  {
    if watch == [] then []
    else ExpandWatch(watch[..|watch| - 1]) + ExpandOne(watch[|watch| - 1].0, watch[|watch| - 1].1)
  }

  /** The number of watchers one declaration creates. */
  function HandlerCount(h: WatchHandler): nat {
    if h.HandlerArray? then |h.items| else 1
  }

  function WatcherCount(watch: Entries<WatchHandler>): nat
    decreases |watch|
  {
    if watch == [] then 0 else HandlerCount(watch[0].1) + WatcherCount(watch[1..])
  }

  /** Expansion goes declaration by declaration. */
  lemma {:induction false} ExpandWatchAppend(a: Entries<WatchHandler>, b: Entries<WatchHandler>)
    ensures ExpandWatch(a + b) == ExpandWatch(a) + ExpandWatch(b)
    decreases |b|
  {
    if b != [] {
      var b' := b[..|b| - 1];
      assert (a + b)[..|a + b| - 1] == a + b' && (a + b)[|a + b| - 1] == b[|b| - 1];
      ExpandWatchAppend(a, b');
    } else {
      assert a + b == a;
    }
  }

  /** initWatch creates one watcher per array element and one per other handler. */
  lemma {:induction false} ExpandWatchCount(watch: Entries<WatchHandler>)
    ensures |ExpandWatch(watch)| == WatcherCount(watch)
    decreases |watch|
  {
    if watch != [] {
      var first, rest := watch[0], watch[1..];
      ExpandWatchAppend([first], rest);
      assert [first] + rest == watch;
      ExpandWatchSingle(first);
      ExpandWatchCount(rest);
      assert |ExpandWatch(watch)| == |ExpandOne(first.0, first.1)| + |ExpandWatch(rest)|;
    }
  }

  /** One declaration expands to its own handlers. */
  lemma ExpandWatchSingle(d: (string, WatchHandler))
    ensures ExpandWatch([d]) == ExpandOne(d.0, d.1)
    ensures |ExpandOne(d.0, d.1)| == HandlerCount(d.1)
  {
    assert [d][..0] == [];
  }

  /** How many plain-object layers wrap a handler. */
  function Depth(h: WatchHandler): nat {
    if h.HandlerObject? then 1 + Depth(h.handler) else 0
  }

  /** `vm[name]` for a string handler, when that name is not a computed accessor. */
  function ResolveName(s: Store, name: string): Value {
    if name in s.members && s.members[name].Accessor? then Undefined else Peek(s, name)
  }

  /** The string handlers met while normalising name plain members (no computed accessor). */
  predicate NamesResolvable(h: WatchHandler, s: Store)
    decreases Depth(h)
  {
    var h1 := if h.HandlerObject? then h.handler else h;
    && (h1.Handler? && h1.v.Str? ==> !(h1.v.s in s.members && s.members[h1.v.s].Accessor?))
    && (h1.HandlerObject? ==> NamesResolvable(h1, s))
  }

  /** The callback and options createWatcher and $watch settle on: every plain-object
      layer gives its options and its `handler` field, and a string names a property of
      the instance. */
  function Normalize(h: WatchHandler, o: Option<WatchOptions>, s: Store): (r: (WatchHandler, Option<WatchOptions>))
    ensures !r.0.HandlerObject?
    ensures h.HandlerObject? ==> r.1.Some?
    ensures !h.HandlerObject? ==> r.1 == o
    ensures h.HandlerArray? || (h.Handler? && !h.v.Str?) ==> r == (h, o)
    ensures h.HandlerObject? && !h.handler.HandlerObject? ==> r.1 == Some(h.options)
    decreases Depth(h)
  {
    var (h1, o1) := if h.HandlerObject? then (h.handler, Some(h.options)) else (h, o);
    var h2 := if h1.Handler? && h1.v.Str? then Handler(ResolveName(s, h1.v.s)) else h1;
    if h2.HandlerObject? then Normalize(h2, o1, s) else (h2, o1)
  }

  /** The options a user watcher is created with: `options || {}`, then `user = true`. */
  function UserOptions(o: Option<WatchOptions>): WatchOptions {
    (if o.Some? then o.value else EmptyOptions).(user := true)
  }

  /** `watcher.value` passed to an immediate callback, and what happens when it is called. */
  function ImmediateCalls(w: WatchHandler, value: Value): seq<Call> {
    if w.Handler? && IsFunction(w.v) then [Call(w.v, value)] else []
  }

  /** A watcher created by initWatch for `key` with handler `h`: a user watcher on the
      key path, with the callback and options createWatcher settles on. */
  predicate MadeBy(w: Watcher, key: string, h: WatchHandler, s: Store) {
    && w.expression == Path(key) && w.options.user
    && (NamesResolvable(h, s) ==>
         var (cb, o) := Normalize(h, None, s);
         w.cb == cb && w.options == UserOptions(o))
  }

  /** The watchers initWatch created, one per expanded declaration, in order. */
  predicate UserWatchers(ws: seq<Watcher>, expanded: seq<(string, WatchHandler)>, s: Store) {
    |ws| == |expanded| && forall j :: 0 <= j < |ws| ==> MadeBy(ws[j], expanded[j].0, expanded[j].1, s)
  }

  lemma UserWatchersAppend(ws: seq<Watcher>, ws': seq<Watcher>, e: seq<(string, WatchHandler)>, e': seq<(string, WatchHandler)>, s: Store)
    requires UserWatchers(ws, e, s) && UserWatchers(ws', e', s)
    ensures UserWatchers(ws + ws', e + e', s)
  {
  }

  /** The number of computed watchers initComputed creates. */
  function ComputedCount(computed: Option<Entries<ComputedDef>>, env: Env): nat {
    if computed.Some? && !env.isSSR then |computed.value| else 0
  }

  /** The number of user watchers initWatch creates. */
  function WatchCount(watch: Option<Entries<WatchHandler>>): nat {
    if watch.Some? then WatcherCount(watch.value) else 0
  }

  /** The store and logs initMethods has produced after the methods `done`, starting
      from `o0` and the logs `w0` and `c0`. */
  ghost predicate MethodsStore(o0: Outcome, done: Entries<Value>, props: Option<seq<string>>, dev: bool,
                               w0: seq<Warning>, c0: seq<Call>, store: Store, warnings: seq<Warning>, calls: seq<Call>)
  {
    var o := MethodsOutcome(o0, done, props, dev);
    store == o.store && warnings == w0 + o.warnings && calls == c0 + o.calls
  }

  /** initProps after the keys `done`: they are the prop keys, hold their validated
      values, are proxied where nothing was there, and have been checked. */
  ghost predicate PropsDone(done: seq<string>, env: Env, observing: bool, m0: map<string, Member>, w0: seq<Warning>,
                            propKeys: seq<string>, store: Store, warnings: seq<Warning>) {
    && propKeys == done
    && store.props == PropValues(done, env, observing)
    && store.members == PropProxies(m0, done)
    && warnings == w0 + PropWarnings(done, env)
  }

  /** A lazy watcher that has not been evaluated yet: its first read will evaluate it. */
  ghost predicate Unevaluated(w: Watcher)
    reads w
  {
    w.options.lazy && w.dirty && w.active && w.evaluations == 0
  }

  /** The j-th computed key is mapped to the j-th watcher created, a lazy watcher on
      `getter || noop`. */
  ghost predicate Registered(cw: map<string, Watcher>, created: seq<Watcher>, computed: Entries<ComputedDef>, j: nat)
    requires j < |computed|
  {
    && j < |created|
    && computed[j].0 in cw && cw[computed[j].0] == created[j]
    && created[j].expression == Getter(WatcherGetter(computed[j].1))
    && created[j].options == EmptyOptions.(lazy := true)
  }

  /** The store and warnings initComputed has produced after the keys `done`, starting
      from `o0` and the warnings `w0`. */
  ghost predicate ComputedStore(o0: Outcome, done: Entries<ComputedDef>, props: Option<seq<string>>, shouldCache: bool, dev: bool,
                                w0: seq<Warning>, store: Store, warnings: seq<Warning>, thrown: bool)
  {
    var o := ComputedOutcome(o0, done, props, shouldCache, dev);
    store == o.store && warnings == w0 + o.warnings && thrown == o.thrown
  }

  /** initComputed's loop after i keys, from the outcome `o0`, the warnings `w0` and the
      watchers `ws0`: the store and warnings are those of ComputedOutcome, the watchers
      made are registered and appended, and only the last key handled can have thrown. */
  ghost predicate ComputedLoopAt(o0: Outcome, computed: Entries<ComputedDef>, props: Option<seq<string>>, env: Env,
                                 w0: seq<Warning>, ws0: seq<Watcher>, i: nat, threw: bool, created: seq<Watcher>,
                                 cw: map<string, Watcher>, store: Store, warnings: seq<Warning>, watchers: seq<Watcher>)
  {
    && i <= |computed|
    && WatchersProgress(cw, computed, Made(computed, i, threw), env, created)
    && ComputedStore(o0, computed[..i], props, !env.isSSR, env.dev, w0, store, warnings, threw)
    && ThrewLast(o0, computed, props, !env.isSSR, env.dev, i, threw)
    && Appended(watchers, ws0, created)
  }

  /** `ws` is `ws0` followed by the watchers `created`, none of them twice. */
  ghost predicate Appended(ws: seq<Watcher>, ws0: seq<Watcher>, created: seq<Watcher>) {
    ws == ws0 + created && Distinct(created)
  }

  /** The watchers initComputed has registered in `cw` after its first i keys; `created`
      are the ones it made, in order. */
  ghost predicate WatchersProgress(cw: map<string, Watcher>, computed: Entries<ComputedDef>, i: nat, env: Env, created: seq<Watcher>)
  {
    && i <= |computed|
    && (forall k :: k in cw <==> !env.isSSR && HasKey(computed[..i], k))
    && |created| == (if env.isSSR then 0 else i)
    && (!env.isSSR ==> forall j :: 0 <= j < i ==> Registered(cw, created, computed, j))
  }

  // ---------------------------------------------------------------------------
  // The instance
  // ---------------------------------------------------------------------------

  class Vm {
    /** `$options` */
    var options: InstanceOptions
    /** `$parent` */
    var parent: Value
    /** The instance's members, `_data` and `_props`. */
    var store: Store
    /** `$options._propKeys` */
    var propKeys: seq<string>
    /** `_computedWatchers`; absent keys are undefined. */
    var computedWatchers: map<string, Watcher>
    /** `_watchers` */
    var watchers: seq<Watcher>
    var warnings: seq<Warning>
    var errors: seq<ErrorReport>
    var calls: seq<Call>
    var phases: seq<Phase>

    /** A fresh instance before `_init`: only what its prototype chain provides is visible. */
    constructor (inherited: map<string, Member>)
      ensures store == Store(inherited, Plain([]), map[]) && options == NoInstanceOptions
      ensures parent == Undefined && propKeys == []
      ensures computedWatchers == map[] && watchers == []
      ensures warnings == [] && errors == [] && calls == [] && phases == []
    {
      options := NoInstanceOptions;
      parent := Undefined;
      store := Store(inherited, Plain([]), map[]);
      propKeys := [];
      computedWatchers := map[];
      watchers := [];
      warnings := [];
      errors := [];
      calls := [];
      phases := [];
    }

    /** initProps: records the prop keys, validates each prop with observing off (except
        on a root instance), and proxies the keys not yet on the instance. */
    method InitProps(propsOptions: seq<string>, rt: Runtime, env: Env)
      modifies this`store, this`propKeys, this`warnings, rt`observing
      ensures propKeys == propsOptions
      ensures rt.observing
      ensures store.props == PropValues(propsOptions, env, if Truthy(parent) then false else old(rt.observing))
      ensures store.members == PropProxies(WithOwn(old(store), "_props").members, propsOptions)
      ensures store.data == old(store.data)
      ensures warnings == old(warnings) + PropWarnings(propsOptions, env)
      ensures old(store.members).Keys + {"_props"} <= store.members.Keys
    {
      store := WithOwn(store, "_props").(props := map[]);
      propKeys := [];
      var isRoot := !Truthy(parent);
      if !isRoot {
        rt.ToggleObserving(false);
      }
      ghost var m0, w0 := store.members, warnings;
      var i := 0;
      while i < |propsOptions|
        invariant 0 <= i <= |propsOptions|
        invariant rt.observing == (if isRoot then old(rt.observing) else false)
        invariant PropsDone(propsOptions[..i], env, rt.observing, m0, w0, propKeys, store, warnings)
        invariant store.data == old(store.data)
      {
        InitProp(propsOptions, i, rt, env, m0, w0);
        i := i + 1;
      }
      assert propsOptions[..i] == propsOptions;
      rt.ToggleObserving(true);
      forall k | k in m0 ensures k in store.members {
        PropProxiesExact(m0, propsOptions, k);
      }
    }

    /** The body of initProps' loop for the i-th declared key. */
    method InitProp(keys: seq<string>, i: nat, rt: Runtime, env: Env, ghost m0: map<string, Member>, ghost w0: seq<Warning>)
      requires i < |keys|
      requires PropsDone(keys[..i], env, rt.observing, m0, w0, propKeys, store, warnings)
      modifies this`store, this`propKeys, this`warnings
      ensures PropsDone(keys[..i + 1], env, rt.observing, m0, w0, propKeys, store, warnings)
      ensures store.data == old(store.data)
    {
      var key := keys[i];
      assert keys[..i + 1][..i] == keys[..i];
      propKeys := propKeys + [key];
      var value := env.validateProp(key, rt.observing);
      if env.dev && env.reservedProp(key) {
        warnings := warnings + [ReservedProp(key)];
      }
      store := store.(props := store.props[key := value]);
      if key !in store.members {
        store := DefineProxy(store, key, PropsObject);
      }
    }

    /** initMethods: warns, then assigns each method to the instance as `vm[key] = ...`. */
    method InitMethods(methods: Entries<Value>, env: Env)
      modifies this`store, this`warnings, this`calls
      ensures var r := MethodsOutcome(Outcome(old(store), [], [], false), methods, options.props, env.dev);
        store == r.store && warnings == old(warnings) + r.warnings && calls == old(calls) + r.calls
      ensures old(store.members).Keys <= store.members.Keys
    {
      ghost var o0 := Outcome(store, [], [], false);
      ghost var w0, c0 := warnings, calls;
      var i := 0;
      while i < |methods|
        invariant 0 <= i <= |methods|
        invariant MethodsStore(o0, methods[..i], options.props, env.dev, w0, c0, store, warnings, calls)
      {
        InstallMethod(methods, i, env, o0, w0, c0);
        i := i + 1;
      }
      assert methods[..i] == methods;
      MethodsKeepKeys(o0, methods, options.props, env.dev);
    }

    /** The body of initMethods' loop for the i-th method, as one more step of MethodsOutcome. */
    method InstallMethod(methods: Entries<Value>, i: nat, env: Env, ghost o0: Outcome, ghost w0: seq<Warning>, ghost c0: seq<Call>)
      requires i < |methods|
      requires MethodsStore(o0, methods[..i], options.props, env.dev, w0, c0, store, warnings, calls)
      modifies this`store, this`warnings, this`calls
      ensures MethodsStore(o0, methods[..i + 1], options.props, env.dev, w0, c0, store, warnings, calls)
    {
      var props := options.props;
      var key, fn := methods[i].0, methods[i].1;
      MethodsOutcomeStep(o0, methods, i, props, env.dev);
      ghost var o := MethodsOutcome(o0, methods[..i], props, env.dev);
      WarnMethod(key, fn, props, env.dev);
      Write(key, MethodValue(fn));
      MethodStepLogs(o, key, fn, props, env.dev, w0, c0);
    }

    /** The development-build checks initMethods makes on one method, before assigning it. */
    method WarnMethod(key: string, fn: Value, props: Option<seq<string>>, dev: bool)
      modifies this`warnings
      ensures warnings == old(warnings) + MethodWarnings(key, fn, props, key in store.members, dev)
    {
      if dev {
        if !IsFunction(fn) {
          warnings := warnings + [MethodNotFunction(key)];
        }
        if props.Some? && key in props.value {
          warnings := warnings + [MethodIsProp(key)];
        }
        if key in store.members && IsReserved(key) {
          warnings := warnings + [MethodReserved(key)];
        }
      }
    }

    /** getData: calls the data function with `Dep.target` unset and restores the target
        stack whether or not it throws; a throw is reported and yields `{}`. */
    method GetData(call: DataCall, rt: Runtime) returns (d: DataValue)
      modifies this`errors, rt`stack
      ensures rt.stack == old(rt.stack)
      ensures call.Returns? ==> d == call.result && errors == old(errors)
      ensures call.Throws? ==> d == Plain([]) && errors == old(errors) + [DataError(call.error)]
    {
      rt.PushTarget(null);
      // the data function runs here: with no target, nothing it reads is collected
      assert rt.Target() == null;
      match call {
        case Returns(v) =>
          d := v;
        case Throws(e) =>
          errors := errors + [DataError(e)];
          d := Plain([]);
      }
      rt.PopTarget();
      assert (old(rt.stack) + [null])[..|old(rt.stack)|] == old(rt.stack);
    }

    /** initData: resolves `_data`, then visits its keys from last to first, warning on
        clashes with methods and props and proxying the rest unless reserved. A result
        that is not a plain object stays in `_data`, but no key of it is proxied. */
    method InitData(rt: Runtime, env: Env)
      modifies this`store, this`warnings, this`errors, rt`stack
      ensures rt.stack == old(rt.stack)
      ensures store.data == ResolvedData(options.data)
      ensures errors == old(errors) + (if options.data.DataFn? && options.data.call.Throws? then [DataError(options.data.call.error)] else [])
      ensures store.props == old(store.props)
      ensures var keys := if store.data.Plain? then KeysOf(store.data.entries) else [];
        && store.members == DataProxies(WithOwn(old(store), "_data").members, keys, options.props)
        && warnings == old(warnings) + (if !store.data.Plain? && env.dev then [DataNotObject] else [])
                        + DataWarnings(keys, options.methods, options.props, env.dev)
      ensures old(store.members).Keys + {"_data"} <= store.members.Keys
    {
      var d: DataValue;
      match options.data {
        case DataFn(_, call) =>
          d := GetData(call, rt);
        case DataVal(v) =>
          d := if v.Plain? || Truthy(v.v) then v else Plain([]);
        case NoData =>
          d := Plain([]);
      }
      store := WithOwn(store, "_data").(data := d);
      var entries: Entries<Value> := [];
      if d.Plain? {
        entries := d.entries;
      } else if env.dev {
        warnings := warnings + [DataNotObject];
      }
      ghost var m0 := store.members;
      ProxyData(KeysOf(entries), options.methods, options.props, env.dev);
      forall k | k in m0 ensures k in store.members {
        DataProxiesExact(m0, KeysOf(entries), options.props, k);
      }
    }

    /** The loop of initData: from the last key to the first, report a clash with a
        method and with a prop, and proxy the key unless it is a prop or reserved. */
    method ProxyData(keys: seq<string>, methods: Option<Entries<Value>>, props: Option<seq<string>>, dev: bool)
      modifies this`store, this`warnings
      ensures store == old(store).(members := DataProxies(old(store.members), keys, props))
      ensures warnings == old(warnings) + DataWarnings(keys, methods, props, dev)
    {
      ghost var s0 := store;
      ghost var w0 := warnings;
      var i := |keys|;
      while i > 0
        invariant 0 <= i <= |keys|
        invariant store == s0.(members := DataProxies(s0.members, keys[i..], props))
        invariant warnings == w0 + DataWarnings(keys[i..], methods, props, dev)
      {
        i := i - 1;
        assert keys[i..][1..] == keys[i + 1..] && keys[i..][0] == keys[i];
        ProxyDataKey(keys[i], methods, props, dev);
        ConcatAssoc(w0, DataWarnings(keys[i + 1..], methods, props, dev), DataKeyWarnings(keys[i], methods, props, dev));
      }
    }

    /** One turn of initData's loop: the clash warnings for `key`, and its proxy unless
        it is a prop or reserved. */
    method ProxyDataKey(key: string, methods: Option<Entries<Value>>, props: Option<seq<string>>, dev: bool)
      modifies this`store, this`warnings
      ensures store == if DataProxied(key, props) then DefineProxy(old(store), key, DataObject) else old(store)
      ensures warnings == old(warnings) + DataKeyWarnings(key, methods, props, dev)
    {
      if dev && methods.Some? && HasKey(methods.value, key) {
        warnings := warnings + [DataIsMethod(key)];
      }
      if props.Some? && key in props.value {
        if dev {
          warnings := warnings + [DataIsProp(key)];
        }
      } else if !IsReserved(key) {
        store := DefineProxy(store, key, DataObject);
      }
    }

    /** defineComputed(vm, key, userDef): `Object.defineProperty` installs the selected
        accessor, or throws a TypeError, leaving the key undefined, when the setter is
        not a function. */
    method DefineComputed(key: string, def: ComputedDef, env: Env) returns (threw: bool)
      requires !def.ComputedNullish?
      modifies this`store
      ensures threw == SetterThrows(def)
      ensures store == if threw then old(store)
        else old(store).(members := old(store.members)[key := SelectAccessor(key, def, !env.isSSR, env.dev)])
    {
      var accessor := SelectAccessor(key, def, !env.isSSR, env.dev);
      if accessor.setter.UserSetter? && !IsFunction(accessor.setter.fn) {
        return true;
      }
      threw := false;
      store := store.(members := store.members[key := accessor]);
    }

    /** initComputed: creates `_computedWatchers`, then per key one fresh lazy watcher
        (none during server rendering) and an accessor unless the key is already on the
        instance; a key already there is only reported when it is data or a prop, and in
        a development build the check throws when `_data` is not an object. */
    method InitComputed(computed: Entries<ComputedDef>, env: Env) returns (threw: bool)
      requires UniqueKeys(computed)
      modifies this`computedWatchers, this`watchers, this`store, this`warnings
      ensures var o0 := Outcome(WithOwn(old(store), "_computedWatchers"), [], [], false);
        var r := ComputedOutcome(o0, computed, options.props, !env.isSSR, env.dev);
        && store == r.store && warnings == old(warnings) + r.warnings && threw == r.thrown
        && |watchers| >= |old(watchers)| && watchers[..|old(watchers)|] == old(watchers)
        && WatchersProgress(computedWatchers, computed, ComputedReached(o0, computed, options.props, !env.isSSR, env.dev),
                            env, watchers[|old(watchers)|..])
      ensures var created := watchers[|old(watchers)|..];
        && (forall j :: 0 <= j < |created| ==> fresh(created[j]) && Unevaluated(created[j]))
        && Distinct(created)
      ensures forall k :: k in computedWatchers ==> fresh(computedWatchers[k])
    {
      store := WithOwn(store, "_computedWatchers");
      computedWatchers := map[];
      ghost var o0, w0, ws0 := Outcome(store, [], [], false), warnings, watchers;
      ghost var created, i;
      threw, created, i := ComputedLoop(computed, env);
      ComputedLoopDone(o0, computed, options.props, env, w0, ws0, i, threw, created, computedWatchers, store, warnings, watchers);
      assert watchers[..|old(watchers)|] == old(watchers);
      assert watchers[|old(watchers)|..] == created;
    }

    /** The loop of initComputed, from an empty `_computedWatchers`, up to the end or
        just after the first key that throws (the i-th); `created` are the watchers it
        makes, in order. */
    method ComputedLoop(computed: Entries<ComputedDef>, env: Env) returns (threw: bool, ghost created: seq<Watcher>, i: nat)
      requires UniqueKeys(computed) && computedWatchers == map[]
      modifies this`computedWatchers, this`watchers, this`store, this`warnings
      ensures !(i < |computed| && !threw)
      ensures ComputedLoopAt(Outcome(old(store), [], [], false), computed, options.props, env, old(warnings), old(watchers),
                             i, threw, created, computedWatchers, store, warnings, watchers)
      ensures forall k :: k in computedWatchers ==> fresh(computedWatchers[k])
      ensures forall j :: 0 <= j < |created| ==> fresh(created[j]) && Unevaluated(created[j])
    {
      ghost var o0 := Outcome(store, [], [], false);
      ghost var w0, ws0 := warnings, watchers;
      created := [];
      threw := false;
      i := 0;
      while i < |computed| && !threw
        invariant ComputedLoopAt(o0, computed, options.props, env, w0, ws0, i, threw, created, computedWatchers, store, warnings, watchers)
        invariant forall j :: 0 <= j < |created| ==> fresh(created[j]) && Unevaluated(created[j])
        invariant forall k :: k in computedWatchers ==> fresh(computedWatchers[k])
      {
        var w, next, t := ComputedEntry(computed, i, env, o0, w0, ws0, created);
        created, threw := next, t;
        i := i + 1;
      }
    }

    /** One pass of initComputed's loop: the watcher (unless server rendering, or the
        definition is null or undefined and reading its `get` throws), then the rest of
        the body in ComputedKey. */
    method ComputedEntry(computed: Entries<ComputedDef>, i: nat, env: Env, ghost o0: Outcome, ghost w0: seq<Warning>,
                         ghost ws0: seq<Watcher>, ghost created: seq<Watcher>)
      returns (w: Watcher?, ghost next: seq<Watcher>, threw: bool)
      requires UniqueKeys(computed) && i < |computed|
      requires ComputedLoopAt(o0, computed, options.props, env, w0, ws0, i, false, created, computedWatchers, store, warnings, watchers)
      modifies this`computedWatchers, this`watchers, this`store, this`warnings
      ensures env.isSSR || computed[i].1.ComputedNullish? ==>
        w == null && computedWatchers == old(computedWatchers) && watchers == old(watchers)
      ensures !env.isSSR && !computed[i].1.ComputedNullish? ==>
        (w != null && fresh(w) && Unevaluated(w) && watchers == old(watchers) + [w]
         && computedWatchers == old(computedWatchers)[computed[i].0 := w])
      ensures next == if w == null then created else created + [w]
      ensures ComputedLoopAt(o0, computed, options.props, env, w0, ws0, i + 1, threw, next, computedWatchers, store, warnings, watchers)
    {
      next := created;
      w := null;
      if !env.isSSR && !computed[i].1.ComputedNullish? {
        var v := RegisterComputed(computed[i].0, computed[i].1, computed, i, created);
        w := v;
        next := created + [v];
        DistinctAppend(created, v);
      }
      threw := ComputedKeyStep(computed, i, env, o0, w0);
      if env.isSSR {
        PrefixKeys(computed, i);
      }
    }

    /** The accessor part of initComputed's loop body for the i-th key, as one more step
        of ComputedOutcome. */
    method ComputedKeyStep(computed: Entries<ComputedDef>, i: nat, env: Env, ghost o0: Outcome, ghost w0: seq<Warning>)
      returns (threw: bool)
      requires i < |computed|
      requires ComputedStore(o0, computed[..i], options.props, !env.isSSR, env.dev, w0, store, warnings, false)
      modifies this`store, this`warnings
      ensures ComputedStore(o0, computed[..i + 1], options.props, !env.isSSR, env.dev, w0, store, warnings, threw)
      ensures computed[i].1.ComputedNullish? ==> threw
    {
      var key, def := computed[i].0, computed[i].1;
      ComputedOutcomeStep(o0, computed, i, options.props, !env.isSSR, env.dev);
      ghost var o := ComputedOutcome(o0, computed[..i], options.props, !env.isSSR, env.dev);
      ghost var kw := ComputedKeyWarnings(key, def, key in store.members, store.data, options.props, env.dev);
      threw := ComputedKey(key, def, env);
      ConcatAssoc(w0, o.warnings, kw);
    }

    /** The watcher part of initComputed's loop body for the i-th key: a fresh lazy
        watcher on `getter || noop`, stored under the key in `_computedWatchers`. */
    method RegisterComputed(key: string, def: ComputedDef, ghost computed: Entries<ComputedDef>, ghost i: nat, ghost created: seq<Watcher>)
      returns (w: Watcher)
      requires UniqueKeys(computed) && i < |computed| && computed[i] == (key, def)
      requires (forall k :: k in computedWatchers <==> HasKey(computed[..i], k)) && |created| == i
      requires forall j :: 0 <= j < i ==> Registered(computedWatchers, created, computed, j)
      modifies this`computedWatchers, this`watchers
      ensures forall k :: k in computedWatchers <==> HasKey(computed[..i + 1], k)
      ensures fresh(w) && Unevaluated(w) && watchers == old(watchers) + [w] && computedWatchers == old(computedWatchers)[key := w]
      ensures forall j :: 0 <= j < i + 1 ==> Registered(computedWatchers, created + [w], computed, j)
    {
      ghost var cw0 := computedWatchers;
      w := new Watcher.Lazy(WatcherGetter(def));
      forall j | 0 <= j < i ensures computed[j].0 != key {
        assert KeysOf(computed)[j] != KeysOf(computed)[i];
      }
      PrefixKeys(computed, i);
      computedWatchers := computedWatchers[key := w];
      watchers := watchers + [w];
      forall j | 0 <= j < i + 1 ensures Registered(computedWatchers, created + [w], computed, j) {
        if j < i {
          assert Registered(cw0, created, computed, j);
          assert (created + [w])[j] == created[j];
        }
      }
    }

    /** The body of initComputed's loop apart from the watcher: reading `userDef.get`,
        which throws for a null or undefined definition, then the missing-getter
        warning, then defineComputed for a new key, which throws when the setter is not
        a function, or for a key already on the instance the clash check, which throws
        in a development build when `_data` is not an object (`key in vm.$data`). */
    method ComputedKey(key: string, def: ComputedDef, env: Env) returns (threw: bool)
      modifies this`store, this`warnings
      ensures store.members == if def.ComputedNullish? || key in old(store.members) || SetterThrows(def) then old(store.members)
        else old(store.members)[key := SelectAccessor(key, def, !env.isSSR, env.dev)]
      ensures store.data == old(store.data) && store.props == old(store.props)
      ensures warnings == old(warnings) +
        if def.ComputedNullish? then [] else ComputedKeyWarnings(key, def, key in old(store.members), old(store.data), options.props, env.dev)
      ensures threw == (def.ComputedNullish? || InDataThrows(key in old(store.members), old(store.data), env.dev)
                        || (key !in old(store.members) && SetterThrows(def)))
    {
      threw := false;
      if def.ComputedNullish? {
        return true;
      }
      if env.dev && IsNullish(GetterOf(def)) {
        warnings := warnings + [MissingGetter(key)];
      }
      if key !in store.members {
        threw := DefineComputed(key, def, env);
      } else if env.dev {
        if !DataIsObject(store.data) {
          threw := true;
        } else if DataHas(store.data, key) {
          warnings := warnings + [ComputedInData(key)];
        } else if options.props.Some? && key in options.props.value {
          warnings := warnings + [ComputedInProps(key)];
        }
      }
    }

    /** The computed getter: evaluates only when dirty, lets the current target collect
        the watcher's dependencies, and returns the cached value; undefined when no
        watcher is registered under the key. */
    method ComputedGetter(key: string, rt: Runtime, world: World) returns (r: Value)
      modifies (if key in computedWatchers then {computedWatchers[key]} else {}), rt`stack, rt.TargetSet()
      ensures rt.stack == old(rt.stack)
      ensures key !in computedWatchers ==> r == Undefined
      ensures key in computedWatchers ==>
        var w := computedWatchers[key];
        && !w.dirty && r == w.value
        && (old(w.dirty) ==> w.evaluations == old(w.evaluations) + 1 && w.value == world.result(w.expression))
        && (!old(w.dirty) ==> w.evaluations == old(w.evaluations) && w.value == old(w.value))
        && (rt.Target() != null ==> w.deps <= rt.Target().deps)
        && (rt.Target() != null && rt.Target() != w ==> rt.Target().deps == old(rt.Target().deps) + w.deps)
        && (rt.Target() == null ==> w.deps == if old(w.dirty) then world.readSet(w.expression) else old(w.deps))
    {
      if key in computedWatchers {
        var w := computedWatchers[key];
        if w.dirty {
          w.Evaluate(rt, world);
        }
        if rt.Target() != null {
          w.Depend(rt);
        }
        r := w.value;
      } else {
        r := Undefined;
      }
    }

    /** Reading `vm[key]`. */
    method Read(key: string, rt: Runtime, world: World) returns (r: Value)
      modifies computedWatchers.Values, rt`stack, rt.TargetSet()
      ensures rt.stack == old(rt.stack)
      ensures (key !in store.members || !store.members[key].Accessor?) ==> r == Peek(store, key)
      ensures key in store.members && store.members[key].Accessor? && store.members[key].getter.Invoker? ==>
        r == world.result(Getter(store.members[key].getter.fn))
      ensures key in store.members && store.members[key].Accessor? && store.members[key].getter.NoopGetter? ==>
        r == Undefined
      ensures key in store.members && store.members[key].Accessor? && store.members[key].getter.CachedGetter? ==>
        var k := store.members[key].getter.key;
        (k !in computedWatchers ==> r == Undefined) && (k in computedWatchers ==> r == computedWatchers[k].value)
    {
      if key in store.members && store.members[key].Accessor? {
        match store.members[key].getter
        case CachedGetter(k) =>
          r := ComputedGetter(k, rt, world);
        case Invoker(fn) =>
          r := world.result(Getter(fn));
        case NoopGetter =>
          r := Undefined;
      } else {
        r := Peek(store, key);
      }
    }

    /** Writing `vm[key] = v`. */
    method Write(key: string, v: Value)
      modifies this`store, this`warnings, this`calls
      ensures var a := Assign(old(store), key, v);
        store == a.store && warnings == old(warnings) + EffectWarnings(a.effect) && calls == old(calls) + EffectCalls(a.effect)
    {
      var a := Assign(store, key, v);
      store := a.store;
      warnings := warnings + EffectWarnings(a.effect);
      calls := calls + EffectCalls(a.effect);
    }

    /** Two reads of a computed property with no update in between evaluate its getter at
        most once and return the same value, whatever the world does in between. */
    method ReadComputedTwice(key: string, rt: Runtime, world1: World, world2: World) returns (first: Value, second: Value)
      requires key in computedWatchers
      modifies computedWatchers[key], rt`stack, rt.TargetSet()
      ensures second == first
      ensures computedWatchers[key].evaluations <= old(computedWatchers[key].evaluations) + 1
      ensures rt.stack == old(rt.stack)
    {
      first := ComputedGetter(key, rt, world1);
      second := ComputedGetter(key, rt, world2);
    }

    /** createWatcher: a plain-object handler gives the options and its `handler` field, a
        string handler names a property of the instance; then `$watch`. */
    method CreateWatcher(expr: WatchExpr, handler: WatchHandler, opts: Option<WatchOptions>, rt: Runtime, world: World)
      returns (w: Watcher)
      modifies this`watchers, this`calls, this`errors, computedWatchers.Values, rt`stack, rt.TargetSet()
      ensures fresh(w) && watchers == old(watchers) + [w]
      ensures w.expression == expr && w.options.user
      ensures rt.stack == old(rt.stack)
      ensures NamesResolvable(handler, store) ==>
        var (cb, o) := Normalize(handler, opts, store);
        w.cb == cb && w.options == UserOptions(o)
      ensures w.options.immediate ==>
        && calls == old(calls) + ImmediateCalls(w.cb, w.value)
        && errors == old(errors) + (if CallThrows(world, w.cb, w.value) then [ImmediateCallbackError(expr)] else [])
      ensures !w.options.immediate ==> calls == old(calls) && errors == old(errors)
      decreases Depth(handler), 1
    {
      var h, o := handler, opts;
      if h.HandlerObject? {
        o := Some(h.options);
        h := h.handler;
      }
      if h.Handler? && h.v.Str? {
        var v := Read(h.v.s, rt, world);
        h := Handler(v);
      }
      w := Watch(expr, h, o, rt, world);
    }

    /** `$watch(expOrFn, cb, options)`: a plain-object callback goes back through
        createWatcher; otherwise the watcher is a user watcher, an immediate one calls
        its callback once with the current value and reports what that call throws. */
    method Watch(expr: WatchExpr, cb: WatchHandler, opts: Option<WatchOptions>, rt: Runtime, world: World)
      returns (w: Watcher)
      modifies this`watchers, this`calls, this`errors, computedWatchers.Values, rt`stack, rt.TargetSet()
      ensures fresh(w) && watchers == old(watchers) + [w]
      ensures w.expression == expr && w.options.user
      ensures rt.stack == old(rt.stack)
      ensures !cb.HandlerObject? ==> w.cb == cb && w.options == UserOptions(opts)
      ensures cb.HandlerObject? && NamesResolvable(cb, store) ==>
        var (cb', o) := Normalize(cb, opts, store);
        w.cb == cb' && w.options == UserOptions(o)
      ensures w.options.immediate ==>
        && calls == old(calls) + ImmediateCalls(w.cb, w.value)
        && errors == old(errors) + (if CallThrows(world, w.cb, w.value) then [ImmediateCallbackError(expr)] else [])
      ensures !w.options.immediate ==> calls == old(calls) && errors == old(errors)
      decreases Depth(cb), if cb.HandlerObject? then 2 else 0
    {
      if cb.HandlerObject? {
        w := CreateWatcher(expr, cb, opts, rt, world);
        return;
      }
      var o := UserOptions(opts);
      if o.lazy {
        w := new Watcher.Deferred(expr, cb, o);
      } else {
        w := new Watcher.Eager(expr, cb, o, world);
      }
      watchers := watchers + [w];
      if o.immediate {
        if cb.Handler? && IsFunction(cb.v) {
          calls := calls + [Call(cb.v, w.value)];
        }
        if CallThrows(world, cb, w.value) {
          errors := errors + [ImmediateCallbackError(w.expression)];
        }
      }
    }

    /** initWatch: one createWatcher call per array element, in order, or one for any
        other handler. */
    method InitWatch(watch: Entries<WatchHandler>, rt: Runtime, world: World)
      modifies this`watchers, this`calls, this`errors, computedWatchers.Values, rt`stack, rt.TargetSet()
      ensures |watchers| >= |old(watchers)| && watchers[..|old(watchers)|] == old(watchers)
      ensures var created := watchers[|old(watchers)|..];
        && UserWatchers(created, ExpandWatch(watch), store)
        && forall j :: 0 <= j < |created| ==> fresh(created[j])
      ensures rt.stack == old(rt.stack)
    {
      ghost var created: seq<Watcher> := [];
      var i := 0;
      while i < |watch|
        invariant 0 <= i <= |watch|
        invariant watchers == old(watchers) + created
        invariant UserWatchers(created, ExpandWatch(watch[..i]), store)
        invariant forall j :: 0 <= j < |created| ==> fresh(created[j])
        invariant rt.stack == old(rt.stack)
      {
        var (key, handler) := watch[i];
        ghost var ws := WatchEntry(key, handler, rt, world);
        assert watch[..i + 1][..i] == watch[..i];
        UserWatchersAppend(created, ws, ExpandWatch(watch[..i]), ExpandOne(key, handler), store);
        created := created + ws;
        i := i + 1;
      }
      assert watch[..i] == watch;
      assert watchers[|old(watchers)|..] == created;
    }

    /** The body of initWatch's loop for one declaration. */
    method WatchEntry(key: string, handler: WatchHandler, rt: Runtime, world: World) returns (ghost ws: seq<Watcher>)
      modifies this`watchers, this`calls, this`errors, computedWatchers.Values, rt`stack, rt.TargetSet()
      ensures watchers == old(watchers) + ws
      ensures UserWatchers(ws, ExpandOne(key, handler), store)
      ensures forall j :: 0 <= j < |ws| ==> fresh(ws[j])
      ensures rt.stack == old(rt.stack)
    {
      ws := [];
      if handler.HandlerArray? {
        var j := 0;
        while j < |handler.items|
          invariant 0 <= j <= |handler.items|
          invariant watchers == old(watchers) + ws
          invariant UserWatchers(ws, ExpandOne(key, handler)[..j], store)
          invariant forall m :: 0 <= m < |ws| ==> fresh(ws[m])
          invariant rt.stack == old(rt.stack)
        {
          var w := CreateWatcher(Path(key), handler.items[j], None, rt, world);
          UserWatchersAppend(ws, [w], ExpandOne(key, handler)[..j], [(key, handler.items[j])], store);
          assert ExpandOne(key, handler)[..j + 1] == ExpandOne(key, handler)[..j] + [(key, handler.items[j])];
          ws := ws + [w];
          j := j + 1;
        }
        assert ExpandOne(key, handler)[..j] == ExpandOne(key, handler);
      } else {
        var w := CreateWatcher(Path(key), handler, None, rt, world);
        ws := [w];
        assert MadeBy(w, key, handler, store);
      }
    }

    /** initState: `_watchers`, then props, methods, data, computed and watch, in that
        order; a throw in initComputed ends it before initWatch. */
    method InitState(rt: Runtime, world: World, env: Env) returns (threw: bool)
      requires WellFormed(options)
      modifies this`watchers, this`store, this`propKeys, this`warnings, this`errors, this`calls,
        this`computedWatchers, rt`stack, rt`observing, computedWatchers.Values, rt.TargetSet()
      ensures rt.stack == old(rt.stack)
      ensures options == old(options) && parent == old(parent) && phases == old(phases)
      ensures propKeys == if options.props.Some? then options.props.value else old(propKeys)
      ensures rt.observing == (options.props.Some? || old(rt.observing))
      ensures store.data == ResolvedData(options.data)
      ensures old(store.members).Keys + {"_watchers", "_data"} <= store.members.Keys
      ensures options.props.Some? ==> "_props" in store.members
      ensures options.computed.Some? ==> "_computedWatchers" in store.members
      ensures options.computed.None? ==> computedWatchers == old(computedWatchers)
      ensures threw ==>
        (options.computed.Some? && ComputedMayThrow(options.computed.value, store.data, env.dev)
         && exists n: nat :: WatchersProgress(computedWatchers, options.computed.value, n, env, watchers))
      ensures !threw ==> |watchers| == ComputedCount(options.computed, env) + WatchCount(options.watch)
      ensures !threw && options.computed.Some? ==>
        WatchersProgress(computedWatchers, options.computed.value, |options.computed.value|, env,
                         watchers[..ComputedCount(options.computed, env)])
      ensures !threw ==> UserWatchers(watchers[ComputedCount(options.computed, env)..],
        if options.watch.Some? then ExpandWatch(options.watch.value) else [], store)
    {
      watchers := [];
      store := WithOwn(store, "_watchers");
      InitStateData(rt, env);
      threw := InitStateWatchers(rt, world, env);
    }

    /** The first half of initState: props, methods and data (`{}` without a `data`
        option). */
    method InitStateData(rt: Runtime, env: Env)
      modifies this`store, this`propKeys, this`warnings, this`errors, this`calls, rt`stack, rt`observing
      ensures rt.stack == old(rt.stack)
      ensures propKeys == if options.props.Some? then options.props.value else old(propKeys)
      ensures rt.observing == (options.props.Some? || old(rt.observing))
      ensures store.data == ResolvedData(options.data)
      ensures old(store.members).Keys + {"_data"} <= store.members.Keys
      ensures options.props.Some? ==> "_props" in store.members
    {
      var opts := options;
      if opts.props.Some? {
        InitProps(opts.props.value, rt, env);
      }
      if opts.methods.Some? {
        InitMethods(opts.methods.value, env);
      }
      if DataTruthy(opts.data) {
        InitData(rt, env);
      } else {
        store := WithOwn(store, "_data").(data := Plain([]));
      }
    }

    /** The second half of initState, on the fresh `_watchers` list: computed
        properties, then watchers unless initComputed threw. */
    method InitStateWatchers(rt: Runtime, world: World, env: Env) returns (threw: bool)
      requires WellFormed(options) && watchers == []
      modifies this`watchers, this`store, this`warnings, this`errors, this`calls,
        this`computedWatchers, rt`stack, computedWatchers.Values, rt.TargetSet()
      ensures rt.stack == old(rt.stack)
      ensures store.data == old(store.data)
      ensures old(store.members).Keys <= store.members.Keys
      ensures options.computed.Some? ==> "_computedWatchers" in store.members
      ensures options.computed.None? ==> computedWatchers == old(computedWatchers)
      ensures threw ==>
        (options.computed.Some? && ComputedMayThrow(options.computed.value, store.data, env.dev)
         && exists n: nat :: WatchersProgress(computedWatchers, options.computed.value, n, env, watchers))
      ensures !threw ==> |watchers| == ComputedCount(options.computed, env) + WatchCount(options.watch)
      ensures !threw && options.computed.Some? ==>
        WatchersProgress(computedWatchers, options.computed.value, |options.computed.value|, env,
                         watchers[..ComputedCount(options.computed, env)])
      ensures !threw ==> UserWatchers(watchers[ComputedCount(options.computed, env)..],
        if options.watch.Some? then ExpandWatch(options.watch.value) else [], store)
    {
      threw := InitStateComputed(env);
      assert watchers[0..] == watchers;
      if !threw {
        ghost var mid := watchers;
        InitStateWatch(rt, world);
        assert watchers[..ComputedCount(options.computed, env)] == mid;
      }
    }

    /** `if (opts.computed) initComputed(vm, opts.computed)`: the watchers of the keys it
        reaches, all of them unless it throws. */
    method InitStateComputed(env: Env) returns (threw: bool)
      requires WellFormed(options)
      modifies this`watchers, this`store, this`warnings, this`computedWatchers
      ensures store.data == old(store.data)
      ensures old(store.members).Keys <= store.members.Keys
      ensures options.computed.Some? ==> "_computedWatchers" in store.members
      ensures options.computed.None? ==> computedWatchers == old(computedWatchers) && watchers == old(watchers) && !threw
      ensures forall k :: k in computedWatchers ==> fresh(computedWatchers[k]) || computedWatchers[k] in old(computedWatchers).Values
      ensures threw ==> options.computed.Some? && ComputedMayThrow(options.computed.value, store.data, env.dev)
      ensures |watchers| >= |old(watchers)| && watchers[..|old(watchers)|] == old(watchers)
      ensures options.computed.Some? ==>
        exists n: nat :: (!threw ==> n == |options.computed.value|)
          && WatchersProgress(computedWatchers, options.computed.value, n, env, watchers[|old(watchers)|..])
    {
      threw := false;
      var opts := options;
      if opts.computed.Some? {
        var computed := opts.computed.value;
        ghost var o0 := Outcome(WithOwn(store, "_computedWatchers"), [], [], false);
        threw := InitComputed(computed, env);
        ghost var n := ComputedReached(o0, computed, opts.props, !env.isSSR, env.dev);
        if !threw {
          ComputedReachedAll(o0, computed, opts.props, !env.isSSR, env.dev);
        }
        ComputedThrowsOnly(o0, computed, opts.props, !env.isSSR, env.dev);
        ComputedKeepOthers(o0, computed, opts.props, !env.isSSR, env.dev, "_computedWatchers");
        forall k | k in old(store.members) ensures k in store.members {
          ComputedKeepOthers(o0, computed, opts.props, !env.isSSR, env.dev, k);
        }
      }
    }

    /** `if (opts.watch) initWatch(vm, opts.watch)` */
    method InitStateWatch(rt: Runtime, world: World)
      modifies this`watchers, this`calls, this`errors, computedWatchers.Values, rt`stack, rt.TargetSet()
      ensures rt.stack == old(rt.stack)
      ensures |watchers| == |old(watchers)| + WatchCount(options.watch)
      ensures watchers[..|old(watchers)|] == old(watchers)
      ensures UserWatchers(watchers[|old(watchers)|..], if options.watch.Some? then ExpandWatch(options.watch.value) else [], store)
    {
      var opts := options;
      if opts.watch.Some? {
        InitWatch(opts.watch.value, rt, world);
        ExpandWatchCount(opts.watch.value);
      }
    }
  }
}
