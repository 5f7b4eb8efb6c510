/** Instance initialisation: `_init`, the internal-component fast path, and the
    resolution of a constructor's options up its `super` chain. */
module Init {
  import opened Js
  import opened Reactivity
  import opened State

  // ---------------------------------------------------------------------------
  // Constructors and their options objects
  // ---------------------------------------------------------------------------

  /** A constructor's options object, by identity. The model fixes its own properties
      when it is created, so a later change to them means a new object; only its
      `components` registry is written in place. */
  class Options {
    const entries: Entries<Value>
    /** `options.components`, keyed by the name value. */
    var components: map<Value, Ctor>

    constructor (entries: Entries<Value>, components: map<Value, Ctor>)
      ensures this.entries == entries && this.components == components
    {
      this.entries := entries;
      this.components := components;
    }
  }

  /** A component constructor: the root constructor, or one made by extending another. */
  class Ctor {
    /** `Ctor.super` */
    const parent: Ctor?
    /** The length of the `super` chain above this constructor. */
    ghost const depth: nat
    /** `Ctor.options` */
    var options: Options
    /** `Ctor.superOptions`: the parent's options when these were last merged. */
    var superOptions: Options?
    /** `Ctor.extendOptions` */
    var extendOptions: Entries<Value>
    /** `Ctor.sealedOptions`: a snapshot of the options taken when the constructor was made. */
    const sealedOptions: Entries<Value>

    /** The root constructor, with no `super`. */
    constructor Root(options: Options)
      ensures parent == null && depth == 0 && this.options == options
      ensures superOptions == null && extendOptions == [] && sealedOptions == options.entries
    {
      parent := null;
      depth := 0;
      this.options := options;
      superOptions := null;
      extendOptions := [];
      sealedOptions := options.entries;
    }

    /** A constructor extending `parent`: its options were merged from the parent's and
        `extendOptions`, and are sealed as they are now. */
    constructor Sub(parent: Ctor, extendOptions: Entries<Value>, options: Options)
      ensures this.parent == parent && depth == parent.depth + 1
      ensures this.options == options && superOptions == parent.options
      ensures this.extendOptions == extendOptions && sealedOptions == options.entries
    {
      this.parent := parent;
      depth := parent.depth + 1;
      this.options := options;
      superOptions := parent.options;
      this.extendOptions := extendOptions;
      sealedOptions := options.entries;
    }
  }

  /** Every constructor up the chain sits strictly deeper than its `super`. */
  ghost predicate Chained(c: Ctor)
    decreases c.depth
  {
    c.parent != null ==> c.parent.depth < c.depth && Chained(c.parent)
  }

  /** The constructor and all of its `super` chain. */
  ghost function Ancestors(c: Ctor): (r: set<Ctor>)
    requires Chained(c)
    ensures c in r
    ensures forall a :: a in r ==> a.depth <= c.depth
    ensures c.parent != null ==> Ancestors(c.parent) <= r
    decreases c.depth
  {
    if c.parent == null then {c} else {c} + Ancestors(c.parent)
  }

  /** Every constructor up the chain of an allocated constructor is allocated, so a
      method call that does not name them leaves them as they were. */
  lemma {:induction false} AncestorsAllocated(c: Ctor)
    requires Chained(c)
    ensures forall a :: a in Ancestors(c) ==> allocated(a)
    decreases c.depth
  {
    if c.parent != null {
      AncestorsAllocated(c.parent);
    }
  }

  /** Each constructor up the chain has cached the options its `super` has now. */
  ghost predicate Resolved(c: Ctor)
    requires Chained(c)
    reads Ancestors(c)
    decreases c.depth
  {
    c.parent != null ==> c.superOptions == c.parent.options && Resolved(c.parent)
  }

  /** What mergeOptions produces for a constructor. */
  datatype Merged = Merged(entries: Entries<Value>, components: map<Value, Ctor>)

  /** mergeOptions, which this layer calls without seeing: for a constructor (the parent's
      options and registry, and the extension), for an instance (the constructor's
      options and the options passed to `new`), and the view of an options
      object as instance declarations. */
  datatype Merger = Merger(
    merge: (Entries<Value>, map<Value, Ctor>, Entries<Value>) -> Merged,
    instance: (Entries<Value>, Entries<Value>) -> InstanceOptions,
    declared: Entries<Value> -> InstanceOptions)

  /** Options produced by merging are JavaScript objects: no key is repeated. */
  ghost predicate MergerWellFormed(m: Merger) {
    && (forall e, g :: WellFormed(m.instance(e, g)))
    && (forall e :: WellFormed(m.declared(e)))
  }

  // ---------------------------------------------------------------------------
  // resolveModifiedOptions and resolveConstructorOptions
  // ---------------------------------------------------------------------------

  /** `latest[key] !== sealed[key]` for an own key of `latest`. */
  predicate Differs(latest: Entries<Value>, sealed: Entries<Value>, k: string) {
    HasKey(latest, k) && Lookup(latest, k) != Lookup(sealed, k)
  }

  /** resolveModifiedOptions: nothing when every key of the latest options reads as in
      the sealed snapshot; otherwise an object holding exactly the differing keys, each
      with its latest value. Keys only the snapshot has are ignored. */
  method ResolveModifiedOptions(c: Ctor) returns (modified: Option<Entries<Value>>)
    ensures modified.None? <==> forall k :: !Differs(c.options.entries, c.sealedOptions, k)
    ensures modified.Some? ==> UniqueKeys(modified.value)
    ensures modified.Some? ==> forall k ::
      (HasKey(modified.value, k) <==> Differs(c.options.entries, c.sealedOptions, k))
      && (HasKey(modified.value, k) ==> Lookup(modified.value, k) == Lookup(c.options.entries, k))
  {
    var latest := c.options.entries;
    var sealed := c.sealedOptions;
    modified := None;
    var i := 0;
    while i < |latest|
      invariant 0 <= i <= |latest|
      invariant DiffSoFar(modified, latest, sealed, i)
    {
      var key := latest[i].0;
      ghost var before := modified;
      if Lookup(latest, key) != Lookup(sealed, key) {
        var current := if modified.None? then [] else modified.value;
        modified := Some(Put(current, key, Lookup(latest, key)));
      }
      DiffStep(before, modified, latest, sealed, i);
      i := i + 1;
    }
    assert latest[..i] == latest;
    assert forall k :: DiffersUpTo(latest, sealed, i, k) <==> Differs(latest, sealed, k);
  }

  /** A key among the first `n` of `latest` whose value differs from the snapshot's. */
  predicate DiffersUpTo(latest: Entries<Value>, sealed: Entries<Value>, n: nat, k: string)
    requires n <= |latest|
  {
    HasKey(latest[..n], k) && Lookup(latest, k) != Lookup(sealed, k)
  }

  /** resolveModifiedOptions' result after the first `n` keys of `latest`. */
  ghost predicate DiffSoFar(modified: Option<Entries<Value>>, latest: Entries<Value>, sealed: Entries<Value>, n: nat)
    requires n <= |latest|
  {
    && (modified.None? <==> forall k :: !DiffersUpTo(latest, sealed, n, k))
    && (modified.Some? ==> UniqueKeys(modified.value))
    && (modified.Some? ==> forall k ::
         && (HasKey(modified.value, k) <==> DiffersUpTo(latest, sealed, n, k))
         && (HasKey(modified.value, k) ==> Lookup(modified.value, k) == Lookup(latest, k)))
  }

  /** One turn of resolveModifiedOptions' loop: a differing key is recorded with its
      latest value, any other key leaves the result as it was. */
  lemma DiffStep(before: Option<Entries<Value>>, after: Option<Entries<Value>>, latest: Entries<Value>, sealed: Entries<Value>, i: nat)
    requires i < |latest| && DiffSoFar(before, latest, sealed, i)
    requires var key := latest[i].0;
      after == if Lookup(latest, key) != Lookup(sealed, key)
        then Some(Put(if before.None? then [] else before.value, key, Lookup(latest, key)))
        else before
    ensures DiffSoFar(after, latest, sealed, i + 1)
  {
    if Lookup(latest, latest[i].0) != Lookup(sealed, latest[i].0) {
      DiffStepRecorded(before, latest, sealed, i);
    } else {
      UpToStep(latest, sealed, i);
      DiffStepSame(before, latest, sealed, i);
    }
  }

  /** The turn that records a differing key, as a whole. */
  lemma DiffStepRecorded(before: Option<Entries<Value>>, latest: Entries<Value>, sealed: Entries<Value>, i: nat)
    requires i < |latest| && DiffSoFar(before, latest, sealed, i)
    requires Lookup(latest, latest[i].0) != Lookup(sealed, latest[i].0)
    ensures DiffSoFar(Some(Put(if before.None? then [] else before.value, latest[i].0, Lookup(latest, latest[i].0))), latest, sealed, i + 1)
  {
    UpToStep(latest, sealed, i);
    DiffStepAdd(before, latest, sealed, i);
    var r := Put(if before.None? then [] else before.value, latest[i].0, Lookup(latest, latest[i].0));
    DiffSoFarSome(r, latest, sealed, i + 1, latest[i].0);
  }

  /** A result that holds exactly the differing keys so far, at their latest values. */
  lemma DiffSoFarSome(r: Entries<Value>, latest: Entries<Value>, sealed: Entries<Value>, n: nat, key: string)
    requires n <= |latest|
    requires UniqueKeys(r) && DiffersUpTo(latest, sealed, n, key)
    requires forall k :: HasKey(r, k) <==> DiffersUpTo(latest, sealed, n, k)
    requires forall k :: HasKey(r, k) ==> Lookup(r, k) == Lookup(latest, k)
    ensures DiffSoFar(Some(r), latest, sealed, n)
  {
  }

  /** The turn for a key whose value did not change. */
  lemma DiffStepSame(before: Option<Entries<Value>>, latest: Entries<Value>, sealed: Entries<Value>, i: nat)
    requires i < |latest| && DiffSoFar(before, latest, sealed, i)
    requires Lookup(latest, latest[i].0) == Lookup(sealed, latest[i].0)
    requires forall k :: DiffersUpTo(latest, sealed, i + 1, k) <==>
      DiffersUpTo(latest, sealed, i, k) || (k == latest[i].0 && Lookup(latest, k) != Lookup(sealed, k))
    ensures DiffSoFar(before, latest, sealed, i + 1)
  {
    var n := i + 1;
    forall k ensures DiffersUpTo(latest, sealed, n, k) <==> DiffersUpTo(latest, sealed, i, k) {
    }
    if before.Some? {
      var k :| DiffersUpTo(latest, sealed, i, k);
      DiffSoFarSome(before.value, latest, sealed, n, k);
    }
  }

  /** One more key of `latest` adds that key to the differing ones when its value differs. */
  lemma UpToStep(latest: Entries<Value>, sealed: Entries<Value>, i: nat)
    requires i < |latest|
    ensures forall k :: DiffersUpTo(latest, sealed, i + 1, k) <==>
      DiffersUpTo(latest, sealed, i, k) || (k == latest[i].0 && Lookup(latest, k) != Lookup(sealed, k))
  {
    PrefixKeys(latest, i);
  }

  /** The turn that records a differing key. */
  lemma DiffStepAdd(before: Option<Entries<Value>>, latest: Entries<Value>, sealed: Entries<Value>, i: nat)
    requires i < |latest| && DiffSoFar(before, latest, sealed, i)
    requires Lookup(latest, latest[i].0) != Lookup(sealed, latest[i].0)
    requires forall k :: DiffersUpTo(latest, sealed, i + 1, k) <==>
      DiffersUpTo(latest, sealed, i, k) || (k == latest[i].0 && Lookup(latest, k) != Lookup(sealed, k))
    ensures var r := Put(if before.None? then [] else before.value, latest[i].0, Lookup(latest, latest[i].0));
      && UniqueKeys(r) && DiffersUpTo(latest, sealed, i + 1, latest[i].0)
      && (forall k :: HasKey(r, k) <==> DiffersUpTo(latest, sealed, i + 1, k))
      && (forall k :: HasKey(r, k) ==> Lookup(r, k) == Lookup(latest, k))
  {
    var key, v := latest[i].0, Lookup(latest, latest[i].0);
    var current := if before.None? then [] else before.value;
    assert forall k :: HasKey(current, k) <==> DiffersUpTo(latest, sealed, i, k);
    assert forall k :: HasKey(current, k) ==> Lookup(current, k) == Lookup(latest, k);
    assert UniqueKeys(current);
    PutDiffering(current, key, v);
    PutLookups(current, key, v);
    var r := Put(current, key, v);
    assert DiffersUpTo(latest, sealed, i + 1, key);
    AddKeys(current, r, key, latest, sealed, i);
    AddValues(current, r, key, latest);
  }

  lemma AddKeys(current: Entries<Value>, r: Entries<Value>, key: string, latest: Entries<Value>, sealed: Entries<Value>, i: nat)
    requires i < |latest| && key == latest[i].0 && Lookup(latest, key) != Lookup(sealed, key)
    requires forall k :: HasKey(current, k) <==> DiffersUpTo(latest, sealed, i, k)
    requires forall k :: HasKey(r, k) <==> HasKey(current, k) || k == key
    requires forall k :: DiffersUpTo(latest, sealed, i + 1, k) <==>
      DiffersUpTo(latest, sealed, i, k) || (k == latest[i].0 && Lookup(latest, k) != Lookup(sealed, k))
    ensures forall k :: HasKey(r, k) <==> DiffersUpTo(latest, sealed, i + 1, k)
  {
  }

  lemma AddValues(current: Entries<Value>, r: Entries<Value>, key: string, latest: Entries<Value>)
    requires forall k :: HasKey(current, k) ==> Lookup(current, k) == Lookup(latest, k)
    requires forall k :: HasKey(r, k) <==> HasKey(current, k) || k == key
    requires Lookup(r, key) == Lookup(latest, key)
    requires forall k :: k != key ==> Lookup(r, k) == Lookup(current, k)
    ensures forall k :: HasKey(r, k) ==> Lookup(r, k) == Lookup(latest, k)
  {
  }

  /** `modified[key] = value` adds `key` and keeps the keys unique. */
  lemma PutDiffering(modified: Entries<Value>, key: string, value: Value)
    ensures UniqueKeys(modified) ==> UniqueKeys(Put(modified, key, value))
    ensures forall k :: HasKey(Put(modified, key, value), k) <==> HasKey(modified, k) || k == key
  {
    var r := Put(modified, key, value);
    PutKeys(modified, key, value);
    if UniqueKeys(modified) {
      PutKeepsUnique(modified, key, value);
    }
    forall k ensures HasKey(r, k) <==> HasKey(modified, k) || k == key {
      assert k in KeysOf(modified) + [key] <==> k in KeysOf(modified) || k == key;
    }
  }

  /** `modified[key] = value` reads back `value` at `key` and leaves every other key as it was. */
  lemma PutLookups(modified: Entries<Value>, key: string, value: Value)
    ensures Lookup(Put(modified, key, value), key) == value
    ensures forall k :: k != key ==> Lookup(Put(modified, key, value), k) == Lookup(modified, k)
  {
    forall k | k != key ensures Lookup(Put(modified, key, value), k) == Lookup(modified, k) {
      PutOther(modified, key, value, k);
    }
  }

  /** `extendOptions` after absorbing the modified options: a differing key reads as in
      the latest options, any other as before. */
  ghost predicate Absorbed(extended: Entries<Value>, before: Entries<Value>, latest: Entries<Value>, sealed: Entries<Value>) {
    forall k :: Lookup(extended, k) == if Differs(latest, sealed, k) then Lookup(latest, k) else Lookup(before, k)
  }

  /** resolveConstructorOptions: a constructor without `super` keeps its options. Otherwise
      the chain above is resolved first; when the parent's options are still the cached
      ones nothing changes here, and when they are not the cache is refreshed, the late
      modifications are folded into `extendOptions`, the options are merged again, and a
      named constructor registers itself among its own components. */
  method ResolveConstructorOptions(c: Ctor, m: Merger) returns (o: Options)
    requires Chained(c)
    modifies Ancestors(c)
    ensures o == c.options
    ensures Resolved(c)
    ensures old(Resolved(c)) ==> unchanged(c)
    ensures c.parent == null ==> unchanged(c)
    ensures c.parent != null && old(c.superOptions) == c.parent.options ==> unchanged(c)
    ensures c.parent != null && old(c.superOptions) != c.parent.options ==>
      && fresh(c.options)
      && Absorbed(c.extendOptions, old(c.extendOptions), old(c.options.entries), c.sealedOptions)
      && var merged := m.merge(c.parent.options.entries, c.parent.options.components, c.extendOptions);
         && c.options.entries == merged.entries
         && c.options.components == Register(merged, c)
    decreases c.depth
  {
    o := c.options;
    if c.parent != null {
      ghost var chain: set<object> := Ancestors(c.parent);
      assert c !in chain;
      var superOptions := ResolveConstructorOptions(c.parent, m);
      var cached := c.superOptions;
      if superOptions != cached {
        AncestorsAllocated(c.parent);
        o := Refresh(c, superOptions, m);
      }
    }
  }

  /** The refresh of a stale constructor: cache the parent's options, fold the late
      modifications into `extendOptions`, merge again, and register a named constructor
      among its own components. */
  method Refresh(c: Ctor, superOptions: Options, m: Merger) returns (o: Options)
    modifies c`superOptions, c`extendOptions, c`options
    ensures c.superOptions == superOptions && o == c.options && fresh(o)
    ensures Absorbed(c.extendOptions, old(c.extendOptions), old(c.options.entries), c.sealedOptions)
    ensures var merged := m.merge(superOptions.entries, superOptions.components, c.extendOptions);
      o.entries == merged.entries && o.components == Register(merged, c)
  {
    c.superOptions := superOptions;
    var modified := ResolveModifiedOptions(c);
    if modified.Some? {
      AbsorbModified(c.extendOptions, modified.value, c.options.entries, c.sealedOptions);
      c.extendOptions := Extend(c.extendOptions, modified.value);
    } else {
      assert Absorbed(c.extendOptions, c.extendOptions, c.options.entries, c.sealedOptions);
    }
    var merged := m.merge(superOptions.entries, superOptions.components, c.extendOptions);
    o := new Options(merged.entries, merged.components);
    c.options := o;
    if Truthy(Lookup(o.entries, "name")) {
      o.components := o.components[Lookup(o.entries, "name") := c];
    }
  }

  /** Extending `extendOptions` with exactly the differing keys absorbs them. */
  lemma AbsorbModified(before: Entries<Value>, modified: Entries<Value>, latest: Entries<Value>, sealed: Entries<Value>)
    requires UniqueKeys(modified)
    requires forall k :: HasKey(modified, k) <==> Differs(latest, sealed, k)
    requires forall k :: HasKey(modified, k) ==> Lookup(modified, k) == Lookup(latest, k)
    ensures Absorbed(Extend(before, modified), before, latest, sealed)
  {
    forall k ensures Lookup(Extend(before, modified), k) == if Differs(latest, sealed, k) then Lookup(latest, k) else Lookup(before, k) {
      ExtendLookup(before, modified, k);
    }
  }

  /** The merged registry, with a named constructor registered under its name. */
  function Register(merged: Merged, c: Ctor): (r: map<Value, Ctor>)
    ensures Truthy(Lookup(merged.entries, "name")) ==>
      Lookup(merged.entries, "name") in r && r[Lookup(merged.entries, "name")] == c
    ensures forall n :: n in merged.components && n != Lookup(merged.entries, "name") ==> n in r && r[n] == merged.components[n]
    ensures r.Keys <= merged.components.Keys + {Lookup(merged.entries, "name")}
  {
    var name := Lookup(merged.entries, "name");
    if Truthy(name) then merged.components[name := c] else merged.components
  }

  // ---------------------------------------------------------------------------
  // initInternalComponent and _init
  // ---------------------------------------------------------------------------

  /** The options a component's placeholder vnode passes when it creates the instance. */
  datatype InternalOptions = InternalOptions(parent: Value, parentVnode: VNode, render: Value, staticRenderFns: Value)

  /** What `new Ctor(options)` passes to `_init`: nothing, the internal options of a
      component (`_isComponent` set), or any other options object. */
  datatype InitArg = NoOptions | Internal(io: InternalOptions) | Given(entries: Entries<Value>)

  /** initInternalComponent: the instance options inherit the constructor's, take the
      parent and placeholder vnode, copy the vnode's component options, and take the
      render functions only when a render function is passed. */
  method InitInternalComponent(vm: Vm, ctor: Ctor, io: InternalOptions, m: Merger)
    modifies vm`options
    ensures var base := m.declared(ctor.options.entries);
      && vm.options.props == base.props && vm.options.methods == base.methods
      && vm.options.data == base.data && vm.options.computed == base.computed
      && vm.options.watch == base.watch && vm.options.el == base.el
      && (Truthy(io.render) ==> vm.options.render == io.render && vm.options.staticRenderFns == io.staticRenderFns)
      && (!Truthy(io.render) ==> vm.options.render == base.render && vm.options.staticRenderFns == base.staticRenderFns)
    ensures var cvo := io.parentVnode.componentOptions;
      && vm.options.parent == io.parent && vm.options.parentVnode == Some(io.parentVnode)
      && vm.options.propsData == cvo.propsData && vm.options.parentListeners == cvo.listeners
      && vm.options.renderChildren == cvo.children && vm.options.componentTag == cvo.tag
  {
    var opts := m.declared(ctor.options.entries);
    opts := opts.(parent := io.parent, parentVnode := Some(io.parentVnode));
    var cvo := io.parentVnode.componentOptions;
    opts := opts.(propsData := cvo.propsData, parentListeners := cvo.listeners,
                  renderChildren := cvo.children, componentTag := cvo.tag);
    if Truthy(io.render) {
      opts := opts.(render := io.render, staticRenderFns := io.staticRenderFns);
    }
    vm.options := opts;
  }

  /** The steps `_init` takes, in order, around initState; it mounts only when an
      element is given. */
  function InitPhases(el: Value): (r: seq<Phase>)
    ensures |r| == (if Truthy(el) then 10 else 9)
    ensures r[4] == Hook("beforeCreate") && r[6] == StateInit && r[8] == Hook("created")
    ensures forall i :: 0 <= i < |r| && i != 6 ==> r[i] != StateInit
    ensures forall i :: 0 <= i < 9 ==> !r[i].Mount?
    ensures Truthy(el) ==> r[9] == Mount(el)
  {
    [RenderProxy, Lifecycle, Events, Render, Hook("beforeCreate"), Injections, StateInit, Provide, Hook("created")]
      + (if Truthy(el) then [Mount(el)] else [])
  }

  /** The phases before initState followed by the ones after it are all of them. */
  lemma InitPhasesSplit(el: Value)
    ensures InitPhases(el)[..6] + InitPhases(el)[6..] == InitPhases(el)
  {
  }

  /** The instance's own fields `_init` sets before initState on every path. */
  function OwnFields(): set<string> {
    {"_uid", "_isVue", "$options", "_renderProxy", "_self", "$parent"}
  }

  /** What the steps of `_init` after the option merge guarantee, from the phases
      `phases0` it starts with: `$parent` is the parent option; the steps up to
      injections are done and, unless initState threw, initState, provide, the created
      hook and the mount when an element is given; `_data` is the resolved data; and,
      unless initState threw, one watcher per computed key (none when server rendering)
      and per watch handler. initState throws only when a computed definition is null
      or undefined or has a setter that is not a function, or in a development build
      with computed properties and `_data` not an object. */
  ghost predicate Ran(phases0: seq<Phase>, phases: seq<Phase>, o: InstanceOptions, parent: Value, data: DataValue,
                      watchers: seq<Watcher>, threw: bool, env: Env) {
    && parent == o.parent
    && (!threw ==> phases == phases0 + InitPhases(o.el))
    && (threw ==> phases == phases0 + InitPhases(o.el)[..6])
    && (threw ==> o.computed.Some? && ComputedMayThrow(o.computed.value, data, env.dev))
    && data == ResolvedData(o.data)
    && (!threw ==> |watchers| == ComputedCount(o.computed, env) + WatchCount(o.watch))
  }

  /** `_init(options)`: hands out the next instance id, merges the options (through the
      internal-component path for a component's internal options), then runs the
      initialisation steps in order, initState between the beforeCreate and created
      hooks, and mounts when `$options.el` is set; an exception thrown in initState ends
      it there. */
  method Init(vm: Vm, ctor: Ctor, arg: InitArg, rt: Runtime, world: World, env: Env, m: Merger) returns (threw: bool)
    requires rt.Valid() && Chained(ctor) && MergerWellFormed(m)
    modifies vm`options, vm`parent, vm`phases, vm`watchers, vm`store, vm`propKeys,
      vm`warnings, vm`errors, vm`calls, vm`computedWatchers, vm.computedWatchers.Values,
      rt`uid, rt`issued, rt`stack, rt`observing, rt.TargetSet(), Ancestors(ctor)
    ensures rt.Valid() && rt.uid == old(rt.uid) + 1 && rt.issued == old(rt.issued) + [old(rt.uid)]
    ensures arg.Internal? ==>
      && ctor.options == old(ctor.options)
      && vm.options.parent == arg.io.parent && vm.options.parentVnode == Some(arg.io.parentVnode)
      && vm.options.props == m.declared(ctor.options.entries).props
    ensures !arg.Internal? ==>
      && Resolved(ctor)
      && vm.options == m.instance(ctor.options.entries, if arg.Given? then arg.entries else [])
    ensures old(vm.store.members).Keys + OwnFields() + {"_watchers", "_data"} <= vm.store.members.Keys
    ensures Ran(old(vm.phases), vm.phases, vm.options, vm.parent, vm.store.data, vm.watchers, threw, env)
    ensures rt.stack == old(rt.stack)
  {
    Stamp(vm, rt);
    threw := InitSteps(vm, ctor, arg, rt, world, env, m);
  }

  /** `vm._uid = uid++` and `vm._isVue = true`. */
  method Stamp(vm: Vm, rt: Runtime)
    requires rt.Valid()
    modifies vm`store, rt`uid, rt`issued
    ensures rt.Valid() && rt.uid == old(rt.uid) + 1 && rt.issued == old(rt.issued) + [old(rt.uid)]
    ensures vm.store == old(vm.store).(members := old(vm.store.members)["_uid" := Field(Num(old(rt.uid)))]["_isVue" := Field(Bool(true))])
    ensures old(vm.store.members).Keys + {"_uid", "_isVue"} <= vm.store.members.Keys
  {
    var id := rt.NextUid();
    vm.store := vm.store.(members := vm.store.members["_uid" := Field(Num(id))]["_isVue" := Field(Bool(true))]);
  }

  /** `_init` after the instance id: merge the options, then run the steps. */
  method InitSteps(vm: Vm, ctor: Ctor, arg: InitArg, rt: Runtime, world: World, env: Env, m: Merger) returns (threw: bool)
    requires Chained(ctor) && MergerWellFormed(m)
    modifies vm`options, vm`parent, vm`phases, vm`watchers, vm`store, vm`propKeys,
      vm`warnings, vm`errors, vm`calls, vm`computedWatchers, vm.computedWatchers.Values,
      rt`stack, rt`observing, rt.TargetSet(), Ancestors(ctor)
    ensures arg.Internal? ==>
      && ctor.options == old(ctor.options)
      && vm.options.parent == arg.io.parent && vm.options.parentVnode == Some(arg.io.parentVnode)
      && vm.options.props == m.declared(ctor.options.entries).props
    ensures !arg.Internal? ==>
      && Resolved(ctor)
      && vm.options == m.instance(ctor.options.entries, if arg.Given? then arg.entries else [])
    ensures old(vm.store.members).Keys + {"$options", "_renderProxy", "_self", "$parent", "_watchers", "_data"} <= vm.store.members.Keys
    ensures Ran(old(vm.phases), vm.phases, vm.options, vm.parent, vm.store.data, vm.watchers, threw, env)
    ensures rt.stack == old(rt.stack)
  {
    MergeInitOptions(vm, ctor, arg, m);
    AncestorsAllocated(ctor);
    threw := RunInitPhases(vm, rt, world, env);
  }

  /** The option merging of `_init`, which stores the result as `$options`. */
  method MergeInitOptions(vm: Vm, ctor: Ctor, arg: InitArg, m: Merger)
    requires Chained(ctor) && MergerWellFormed(m)
    modifies vm`options, vm`store, Ancestors(ctor)
    ensures WellFormed(vm.options)
    ensures vm.store == WithOwn(old(vm.store), "$options")
    ensures arg.Internal? ==>
      && ctor.options == old(ctor.options)
      && vm.options.parent == arg.io.parent && vm.options.parentVnode == Some(arg.io.parentVnode)
      && vm.options.props == m.declared(ctor.options.entries).props
    ensures !arg.Internal? ==>
      && Resolved(ctor)
      && vm.options == m.instance(ctor.options.entries, if arg.Given? then arg.entries else [])
  {
    vm.store := WithOwn(vm.store, "$options");
    if arg.Internal? {
      InitInternalComponent(vm, ctor, arg.io, m);
      assert WellFormed(m.declared(ctor.options.entries));
    } else {
      var ctorOptions := ResolveConstructorOptions(ctor, m);
      vm.options := m.instance(ctorOptions.entries, if arg.Given? then arg.entries else []);
    }
  }

  /** The steps of `_init` after the options are merged: `_renderProxy` and `_self`,
      initLifecycle's `$parent`, then initState between the beforeCreate and created
      hooks; a throw in initState leaves the later steps undone. */
  method RunInitPhases(vm: Vm, rt: Runtime, world: World, env: Env) returns (threw: bool)
    requires WellFormed(vm.options)
    modifies vm`parent, vm`phases, vm`watchers, vm`store, vm`propKeys, vm`warnings, vm`errors, vm`calls,
      vm`computedWatchers, vm.computedWatchers.Values, rt`stack, rt`observing, rt.TargetSet()
    ensures old(vm.store.members).Keys + {"_renderProxy", "_self", "$parent", "_watchers", "_data"} <= vm.store.members.Keys
    ensures Ran(old(vm.phases), vm.phases, vm.options, vm.parent, vm.store.data, vm.watchers, threw, env)
    ensures rt.stack == old(rt.stack)
  {
    ghost var phases0, el := vm.phases, vm.options.el;
    BeforeState(vm);
    threw := vm.InitState(rt, world, env);
    if !threw {
      AfterState(vm);
      InitPhasesSplit(el);
      assert vm.phases == phases0 + InitPhases(el);
    }
  }

  /** The steps before initState: `_renderProxy` and `_self`, initLifecycle's `$parent`,
      initEvents, initRender, the beforeCreate hook and initInjections. */
  method BeforeState(vm: Vm)
    modifies vm`parent, vm`phases, vm`store
    ensures vm.options == old(vm.options)
    ensures vm.parent == vm.options.parent
    ensures vm.phases == old(vm.phases) + InitPhases(vm.options.el)[..6]
    ensures vm.store == old(vm.store).(members := old(vm.store.members)
      ["_renderProxy" := Field(InstanceObject("_renderProxy"))]["_self" := Field(InstanceObject("_self"))]
      ["$parent" := Field(vm.options.parent)])
    ensures old(vm.store.members).Keys + {"_renderProxy", "_self", "$parent"} <= vm.store.members.Keys
  {
    vm.phases := vm.phases + [RenderProxy];
    vm.store := WithOwn(WithOwn(vm.store, "_renderProxy"), "_self");
    vm.phases := vm.phases + [Lifecycle];
    vm.parent := vm.options.parent;
    vm.store := vm.store.(members := vm.store.members["$parent" := Field(vm.parent)]);
    vm.phases := vm.phases + [Events, Render, Hook("beforeCreate"), Injections];
  }

  /** The steps after initState: initProvide, the created hook, and the mount when an
      element is given. */
  method AfterState(vm: Vm)
    modifies vm`phases
    ensures vm.phases == old(vm.phases) + InitPhases(vm.options.el)[6..]
  {
    vm.phases := vm.phases + [StateInit, Provide, Hook("created")];
    if Truthy(vm.options.el) {
      vm.phases := vm.phases + [Mount(vm.options.el)];
    }
  }
}
