/** The part of the dependency-tracking engine that the instance layer uses: lazy and
    eager watchers, the stack behind `Dep.target`, the `shouldObserve` flag and the
    instance id counter. Only the interface is modelled; dependency channels,
    subscriber lists and the scheduler are not. */
module Reactivity {
  import opened Js

  /** What a watcher observes: a key path on the instance, or a getter function. */
  datatype WatchExpr = Path(path: string) | Getter(fn: Value)

  /** The options a watcher is created with, truthiness already applied. */
  datatype WatchOptions = WatchOptions(lazy: bool, user: bool, deep: bool, sync: bool, immediate: bool)

  /** `{}`: every option off. */
  const EmptyOptions := WatchOptions(false, false, false, false, false)

  /** A watch handler as declared: a value (a function, a method name, anything else),
      a plain object `{ handler, immediate, deep, ... }` whose other fields are the
      options, or an array of handlers. */
  datatype WatchHandler =
    | Handler(v: Value)
    | HandlerObject(handler: WatchHandler, options: WatchOptions)
    | HandlerArray(items: seq<WatchHandler>)

  /** What user code does at one moment: the value an expression evaluates to, the
      dependency ids it reads while doing so, and whether a callback throws on an argument. */
  datatype World = World(
    result: WatchExpr -> Value,
    readSet: WatchExpr -> set<nat>,
    throws: (Value, Value) -> bool)

  /** `Dep.target`: the top of the target stack, null when the stack is empty. */
  function Top(stack: seq<Watcher?>): (t: Watcher?)
    ensures stack == [] ==> t == null
    ensures stack != [] ==> t == stack[|stack| - 1]
  {
    if stack == [] then null else stack[|stack| - 1]
  }

  /** Calling `cb` with `arg` throws when `cb` is not a function or when the function throws. */
  predicate CallThrows(world: World, cb: WatchHandler, arg: Value) {
    !(cb.Handler? && IsFunction(cb.v)) || world.throws(cb.v, arg)
  }

  class Watcher {
    const expression: WatchExpr
    const cb: WatchHandler
    const options: WatchOptions
    var dirty: bool
    var active: bool
    var value: Value
    var deps: set<nat>
    var evaluations: nat

    /** `new Watcher(vm, getter, noop, { lazy: true })`: nothing is evaluated until the first read. */
    constructor Lazy(getter: Value)
      ensures expression == Getter(getter) && cb == Handler(Noop)
      ensures options == EmptyOptions.(lazy := true)
      ensures dirty && active
      ensures value == Undefined && deps == {} && evaluations == 0
    {
      expression := Getter(getter);
      cb := Handler(Noop);
      options := EmptyOptions.(lazy := true);
      dirty := true;
      active := true;
      value := Undefined;
      deps := {};
      evaluations := 0;
    }

    /** A lazy watcher with a callback of its own: it, too, waits for its first read. */
    constructor Deferred(expression: WatchExpr, cb: WatchHandler, options: WatchOptions)
      requires options.lazy
      ensures this.expression == expression && this.cb == cb && this.options == options
      ensures dirty && active
      ensures value == Undefined && deps == {} && evaluations == 0
    {
      this.expression := expression;
      this.cb := cb;
      this.options := options;
      dirty := true;
      active := true;
      value := Undefined;
      deps := {};
      evaluations := 0;
    }

    /** A watcher that is not lazy evaluates its expression as soon as it is created. */
    constructor Eager(expression: WatchExpr, cb: WatchHandler, options: WatchOptions, world: World)
      requires !options.lazy
      ensures this.expression == expression && this.cb == cb && this.options == options
      ensures !dirty && active
      ensures value == world.result(expression) && deps == world.readSet(expression)
      ensures evaluations == 1
    {
      this.expression := expression;
      this.cb := cb;
      this.options := options;
      dirty := false;
      active := true;
      value := world.result(expression);
      deps := world.readSet(expression);
      evaluations := 1;
    }

    /** evaluate(): runs the getter with this watcher as `Dep.target`, keeps its value
        and the dependencies it read, and marks the watcher clean. */
    method Evaluate(rt: Runtime, world: World)
      modifies this`value, this`deps, this`dirty, this`evaluations, rt`stack
      ensures value == world.result(expression) && deps == world.readSet(expression)
      ensures !dirty && evaluations == old(evaluations) + 1
      ensures rt.stack == old(rt.stack)
    {
      rt.PushTarget(this);
      value := world.result(expression);
      deps := world.readSet(expression);
      rt.PopTarget();
      dirty := false;
      evaluations := evaluations + 1;
    }

    /** depend(): the current `Dep.target` collects every dependency of this watcher. */
    method Depend(rt: Runtime)
      requires rt.Target() != null
      modifies rt.Target()`deps
      ensures rt.Target().deps == old(rt.Target().deps) + old(deps)
    {
      var t := rt.Target();
      t.deps := t.deps + deps;
    }

    /** teardown(): the watcher stops depending on anything and is inactive from now on. */
    method Teardown()
      modifies this`active, this`deps
      ensures !active && deps == {}
    {
      active := false;
      deps := {};
    }
  }

  /** The module-level state the instance layer shares with the rest of the program. */
  class Runtime {
    /** The stack behind `Dep.target`. */
    var stack: seq<Watcher?>
    /** `shouldObserve`, switched by toggleObserving. */
    var observing: bool
    /** The `uid` counter of the init module: the id of the next instance. */
    var uid: nat
    /** The ids handed out so far, in order. */
    ghost var issued: seq<nat>

    constructor ()
      ensures stack == [] && observing && uid == 0 && issued == [] && Valid()
    {
      stack := [];
      observing := true;
      uid := 0;
      issued := [];
    }

    /** Ids are handed out in strictly increasing order, each below the counter. */
    ghost predicate Valid()
      reads this`uid, this`issued
    {
      && (forall i, j :: 0 <= i < j < |issued| ==> issued[i] < issued[j])
      && (forall i :: 0 <= i < |issued| ==> issued[i] < uid)
    }

    /** `Dep.target` */
    function Target(): Watcher?
      reads this
    {
      Top(stack)
    }

    /** The objects a call to depend() may change. */
    ghost function TargetSet(): set<Watcher>
      reads this
    {
      if Target() == null then {} else {Target()}
    }

    /** pushTarget(t) */
    method PushTarget(t: Watcher?)
      modifies this`stack
      ensures stack == old(stack) + [t] && Target() == t
    {
      stack := stack + [t];
    }

    /** popTarget(): popping an empty stack leaves it empty. */
    method PopTarget()
      modifies this`stack
      ensures stack == if old(stack) == [] then [] else old(stack)[..|old(stack)| - 1]
    {
      if stack != [] {
        stack := stack[..|stack| - 1];
      }
    }

    /** toggleObserving(value) */
    method ToggleObserving(value: bool)
      modifies this`observing
      ensures observing == value
    {
      observing := value;
    }

    /** `vm._uid = uid++`: the id handed out exceeds every earlier one. */
    method NextUid() returns (id: nat)
      requires Valid()
      modifies this`uid, this`issued
      ensures Valid()
      ensures id == old(uid) && uid == old(uid) + 1 && issued == old(issued) + [id]
      ensures forall i :: 0 <= i < |old(issued)| ==> old(issued)[i] < id
    {
      id := uid;
      uid := uid + 1;
      issued := issued + [id];
    }
  }
}
