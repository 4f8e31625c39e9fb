/**
 * The program around the reactivity engine: effect bodies, computed getters and watch getters are
 * user code, written here in a small statement language and run by an interpreter. Everything the
 * source does between two calls into user code is done by the classes of the other modules; this
 * module calls them in the source's order and runs user code where the source calls it: `effectFn()`
 * inside `effect`, `triggerEffects` and the schedulers of `computed` and `watch`, the getter of a
 * computed object, and the original array methods behind the instrumentation.
 *
 * Each interpreter call takes a `fuel` bound on the depth of nested calls; running out of it is
 * reported as `OutOfFuel` and stands for the stack overflow (a RangeError) of unbounded recursion.
 */
module Runtime {
  import opened Wrappers
  import opened Values
  import opened Heap
  import opened Reactive
  import opened Effect
  import opened BaseHandlers
  import opened Ref
  import opened Computed
  import opened Watch

  /** How a run ends early: a JavaScript exception, a construct outside the model, or the fuel bound. */
  datatype Fault = Thrown(error: JsError) | Unsupported | OutOfFuel

  /** Expressions of user code. */
  datatype Expr =
    | Lit(v: Value)
    | Var(name: string)
    /** `obj[key]` */
    | Get(obj: Expr, key: Expr)
    /** `key in obj` */
    | In(key: Expr, obj: Expr)
    /** `left + right` */
    | Plus(left: Expr, right: Expr)
    /** `left === right` */
    | Same(left: Expr, right: Expr)
    | Not(operand: Expr)
    /** `test ? yes : no` */
    | Cond(test: Expr, yes: Expr, no: Expr)
    /** `obj.m(...args)` for an array method `m` */
    | Call(obj: Expr, m: ArrayMethod, args: seq<Expr>)
    | IsRefOf(operand: Expr)
    | UnRefOf(operand: Expr)
    | IsReactiveOf(operand: Expr)
    | IsReadonlyOf(operand: Expr)

  /** Statements of user code. */
  datatype Stmt =
    | Assign(name: string, e: Expr)
    /** `obj[key] = e` */
    | Put(obj: Expr, key: Expr, e: Expr)
    /** `delete obj[key]` */
    | Delete(obj: Expr, key: Expr)
    /** `for (name in obj) body` */
    | ForIn(name: string, obj: Expr, body: seq<Stmt>)
    | Do(e: Expr)
    | If(test: Expr, yes: seq<Stmt>, no: seq<Stmt>)
    /** `effect(() => { body })` with no options */
    | NestedEffect(body: seq<Stmt>)

  /** What an effect function runs: user statements and a returned expression, or `traverse(source)`. */
  datatype Body = Block(stmts: seq<Stmt>, result: Expr) | TraverseSource(source: Value)

  /** One call of a watch callback `cb(newValue, oldValue)`. */
  datatype Callback = Callback(cb: nat, newValue: Value, oldValue: Value)

  /**
   * What the model records of the program outside the engine: the variables of user code, the
   * calls of user code it does not run, and the runs of effect functions.
   */
  class World {
    var vars: map<string, Value>
    /** Calls of user schedulers, whose code is not run. */
    var scheduled: seq<EffectId>
    /** Calls of watch callbacks, whose code is not run. */
    var callbacks: seq<Callback>
    /** Every run of an effect function, in the order the runs began. */
    ghost var runLog: seq<EffectId>

    constructor ()
      ensures vars == map[] && scheduled == [] && callbacks == [] && runLog == []
    {
      vars := map[];
      scheduled := [];
      callbacks := [];
      runLog := [];
    }
  }

  class Runtime {
    const world: World
    const engine: Engine
    const store: Store
    const cache: ProxyCache
    /** The `RefImpl` instance behind each ref object. */
    var refs: map<Addr, RefImpl>
    /** The closure state behind each computed object. */
    var computeds: map<Addr, ComputedRef>
    /** The closure state of each `watch` call. */
    var watchers: map<nat, Watcher>
    /** The function each effect wraps. */
    var bodies: map<EffectId, Body>
    ghost var Repr: set<object>

    /** The runtime owns its components, and each component keeps its own invariant. */
    ghost predicate Valid()
      reads this, Repr
    {
      Owned() && Components() && Wired()
    }

    /** The footprint holds the runtime, its components and every ref, computed and watcher. */
    ghost predicate Owned()
      reads this
    {
      this in Repr && engine in Repr && store in Repr && cache in Repr && world !in Repr
      && (forall a :: a in refs ==> refs[a] in Repr)
      && (forall a :: a in computeds ==> computeds[a] in Repr)
      && (forall w :: w in watchers ==> watchers[w] in Repr)
    }

    /** The engine, the heap, the wrapper cache and every ref keep their invariants. */
    ghost predicate Components()
      reads this, engine, store, cache, refs.Values
    {
      engine.Valid() && store.Valid() && cache.Valid(store)
      && (forall a :: a in refs ==> refs[a].Valid(engine))
    }

    /**
     * Every computed and watcher has its effect, every effect its function, and every scheduler
     * names a known computed or watcher.
     */
    ghost predicate Wired()
      reads this, engine
    {
      && (forall a :: a in computeds ==> computeds[a].obj == a && computeds[a].effect in engine.options)
      && (forall w :: w in watchers ==> watchers[w].effect in engine.options)
      && (forall e :: e in engine.options ==> e in bodies && Names(engine.options[e].scheduler))
    }

    /** A computed's or watcher's scheduler names a known computed or watcher. */
    ghost predicate Names(sc: Scheduler)
      reads this
    {
      (sc.ComputedScheduler? ==> sc.computed in computeds) && (sc.WatchScheduler? ==> sc.watcher in watchers)
    }

    /**
     * What every step of user code keeps: the same refs, computeds and watchers, effects are only
     * registered, and runs are only added.
     */
    twostate predicate Grows()
      reads this, engine, store, world
    {
      Repr == old(Repr) && refs == old(refs) && computeds == old(computeds) && watchers == old(watchers)
      && old(engine.options).Keys <= engine.options.Keys && old(world.runLog) <= world.runLog
      && old(world.scheduled) <= world.scheduled
      && (forall e :: e in old(engine.options) ==> engine.options[e] == old(engine.options[e]))
      && (forall a :: a in old(store.cells) && old(store.cells[a]).Proxy? ==> a in store.cells && store.cells[a] == old(store.cells[a]))
    }

    /** Nothing the runtime owns changed, and nothing the world records. */
    twostate predicate Quiet()
      reads this, Repr, world
    {
      Repr == old(Repr) && unchanged(old(Repr)) && unchanged(world)
    }

    /** `v` is a ref object with its `RefImpl`. */
    ghost predicate RefAt(v: Value)
      reads this, store
    {
      v.Obj? && v.addr in store.cells && store.cells[v.addr] == RefObject && v.addr in refs
    }

    /** `v` is an ordinary object. */
    ghost predicate PlainAt(v: Value)
      reads this, store
    {
      v.Obj? && v.addr in store.cells && store.cells[v.addr].Plain?
    }

    /** `v` is an ordinary object without a truthy `__v_isRef` of its own. */
    ghost predicate NonRefPlain(v: Value)
      reads this, store
    {
      PlainAt(v) && !Truthy(RawGet(store.cells[v.addr].props, IsRefKey))
    }

    /** `v` is a wrapper made by `createReactiveObject`. */
    ghost predicate ProxyAt(v: Value)
      reads this, store
    {
      v.Obj? && v.addr in store.cells && store.cells[v.addr].Proxy?
    }

    /** `v` is a wrapper made by `createReactiveObject` around an ordinary object. */
    ghost predicate WrapperAt(v: Value)
      reads this, store
    {
      ProxyAt(v) && store.cells[v.addr].target in store.cells && store.cells[store.cells[v.addr].target].Plain?
    }

    /**
     * A step that keeps the objects and the effects, and leaves each component valid, keeps `Valid`
     * and `Grows`. (The lemmas below take the earlier `Valid()` as `old(Valid()) == true`, so that a
     * caller discharges it as the one fact it already has rather than clause by clause.)
     */
    twostate lemma Stepped()
      requires old(Valid()) == true
      requires Repr == old(Repr) && refs == old(refs) && computeds == old(computeds) && watchers == old(watchers)
      requires old(bodies).Keys <= bodies.Keys && old(world.runLog) <= world.runLog && old(world.scheduled) <= world.scheduled
      requires engine.Valid() && engine.options == old(engine.options) && old(engine.sets).Keys <= engine.sets.Keys
      requires store.Valid() && cache.Valid(store)
      requires forall a :: a in old(store.cells) && old(store.cells[a]).Proxy? ==> a in store.cells && store.cells[a] == old(store.cells[a])
      requires forall a :: a in refs ==> unchanged(refs[a]) || refs[a].Valid(engine)
      ensures Valid() && Grows()
    {
    }

    constructor ()
      ensures Valid() && Repr == {this, engine, store, cache}
      ensures fresh(engine) && fresh(store) && fresh(cache) && fresh(world)
      ensures refs == map[] && computeds == map[] && watchers == map[] && world.vars == map[]
      ensures world.runLog == [] && world.scheduled == [] && world.callbacks == []
    {
      world := new World();
      engine := new Engine();
      store := new Store();
      cache := new ProxyCache();
      refs := map[];
      computeds := map[];
      watchers := map[];
      bodies := map[];
      new;
      Repr := {this, engine, store, cache};
    }

    // The engine operations the interpreter calls, one per step of the source between two calls into
    // user code. Each says what it does and that it keeps `Valid`.

    /** The `get` trap of a wrapper around the ordinary object `t`. */
    method HandlerGet(t: Addr, h: Handlers, key: Key) returns (r: GetResult)
      requires Valid() && t in store.cells && store.cells[t].Plain?
      modifies engine, store, cache
      ensures Valid() && Grows()
      ensures engine.effectStack == old(engine.effectStack) && world.runLog == old(world.runLog)
      ensures key == RawFlag ==> r == Read(Obj(t))
      ensures engine.KeepsSubscriptions() && engine.activeEffect == old(engine.activeEffect) && engine.shouldTrack == old(engine.shouldTrack)
      ensures r.Read? && ReservedGet(t, h, key).None? && old(engine.IsTracking()) && TracksRead(h, key) ==>
                engine.Subscribed(old(engine.activeEffect.value), t, key)
      ensures key != RawFlag && !IsObject(RawGet(old(store.cells[t]).props, key)) ==>
                store.cells == old(store.cells) && (r.Read? ==> !IsObject(r.v))
      ensures ReservedGet(t, h, key).None? && old(store.cells[t]).kind == ArrayObject && InstrumentedMethod(key).Some? ==>
                r == ArrayMethodRef(InstrumentedMethod(key).value)
    {
      r := BaseHandlers.Get(engine, store, cache, t, h, key);
      Stepped();
    }

    /** The `set` trap of a mutable wrapper around `t`, with `toRaw(receiver)` already read. */
    method HandlerSet(t: Addr, key: Key, x: Value, receiverRaw: Value) returns (r: Result<Option<TriggerRequest>, JsError>)
      requires Valid() && t in store.cells && store.cells[t].Plain?
      modifies store
      ensures Valid() && Grows()
      ensures engine.effectStack == old(engine.effectStack) && world.runLog == old(world.runLog)
    {
      r := BaseHandlers.Set(store, t, key, x, receiverRaw);
      Stepped();
    }

    /** The `deleteProperty` trap of a mutable wrapper around `t`. */
    method HandlerDelete(t: Addr, key: Key) returns (ok: bool, request: Option<TriggerRequest>)
      requires Valid() && t in store.cells && store.cells[t].Plain?
      modifies store
      ensures Valid() && Grows()
      ensures engine.effectStack == old(engine.effectStack) && world.runLog == old(world.runLog)
    {
      ok, request := BaseHandlers.DeleteProperty(store, t, key);
      Stepped();
    }

    /** The `has` trap of a mutable wrapper around `t`. */
    method HandlerHas(t: Addr, key: Key) returns (r: bool)
      requires Valid() && t in store.cells && store.cells[t].Plain?
      modifies engine
      ensures Valid() && Grows()
      ensures engine.effectStack == old(engine.effectStack) && world.runLog == old(world.runLog)
    {
      r := BaseHandlers.Has(engine, store, t, key);
      Stepped();
    }

    /** The `ownKeys` trap of a mutable wrapper around `t`. */
    method HandlerOwnKeys(t: Addr) returns (r: set<Key>)
      requires Valid() && t in store.cells && store.cells[t].Plain?
      modifies engine
      ensures Valid() && Grows()
      ensures engine.effectStack == old(engine.effectStack) && world.runLog == old(world.runLog)
      ensures r == OwnKeys(store.cells[t].props)
      ensures engine.KeepsSubscriptions() && engine.activeEffect == old(engine.activeEffect) && engine.shouldTrack == old(engine.shouldTrack)
      ensures old(engine.IsTracking()) ==> engine.Subscribed(old(engine.activeEffect.value), t, IterateKey)
    {
      r := BaseHandlers.OwnKeysTrap(engine, store, t);
      Stepped();
    }

    /** An ordinary `[[Set]]` on the object `a`, which no wrapper sees. */
    method RawWrite(a: Addr, key: Key, x: Value) returns (r: Result<(), JsError>)
      requires Valid() && a in store.cells && store.cells[a].Plain?
      modifies store
      ensures Valid() && Grows()
      ensures engine.effectStack == old(engine.effectStack) && world.runLog == old(world.runLog)
      ensures var c := old(store.cells[a]);
              match RawSet(c.kind, c.props, key, x)
              case Failure(err) => r == Failure(err) && unchanged(store)
              case Success(props) => r == Success(()) && store.cells == old(store.cells)[a := Plain(c.kind, props)]
    {
      var c := store.cells[a];
      var written := RawSet(c.kind, c.props, key, x);
      if written.Failure? {
        return Failure(written.error);
      }
      store.SetProps(a, written.value);
      Stepped();
      r := Success(());
    }

    /** An ordinary `[[Delete]]` on the object `a`. */
    method RawRemove(a: Addr, key: Key) returns (ok: bool)
      requires Valid() && a in store.cells && store.cells[a].Plain?
      modifies store
      ensures Valid() && Grows()
      ensures engine.effectStack == old(engine.effectStack) && world.runLog == old(world.runLog)
      ensures var c := old(store.cells[a]);
              var (rest, res) := RawDelete(c.kind, c.props, key);
              ok == res && store.cells == old(store.cells)[a := Plain(c.kind, rest)]
    {
      var c := store.cells[a];
      var (rest, res) := RawDelete(c.kind, c.props, key);
      store.SetProps(a, rest);
      Stepped();
      ok := res;
    }

    /** The `value` getter of the ref object `a`. */
    method RefGet(a: Addr) returns (v: Value)
      requires Valid() && a in refs
      modifies engine
      ensures Valid() && Grows()
      ensures engine.effectStack == old(engine.effectStack) && world.runLog == old(world.runLog)
      ensures v == refs[a].value
    {
      v := refs[a].GetValue(engine);
      Stepped();
    }

    /** The `value` setter of the ref object `a`, up to the effects it hands back to be run. */
    method RefSet(a: Addr, x: Value) returns (toRun: set<EffectId>)
      requires Valid() && a in refs
      modifies refs[a], store, cache
      ensures Valid() && Grows()
      ensures engine.effectStack == old(engine.effectStack) && world.runLog == old(world.runLog)
      ensures toRun <= engine.options.Keys
      ensures refs[a].rawValue == ToRaw(old(store.cells), x) && toRun <= engine.sets[refs[a].dep]
      ensures old(refs[a].rawValue) != ToRaw(old(store.cells), x) ==> toRun == engine.sets[refs[a].dep]
      ensures old(refs[a].rawValue) == ToRaw(old(store.cells), x) ==> toRun == {}
      ensures old(store.cells).Keys <= store.cells.Keys && forall b :: b in old(store.cells) ==> store.cells[b] == old(store.cells[b])
    {
      toRun := refs[a].SetValue(engine, store, cache, ToRaw(store.cells, x));
      Stepped();
    }

    /** `pauseTracking()` or `enableTracking()`. */
    method SetTracking(on: bool)
      requires Valid()
      modifies engine
      ensures Valid() && Grows()
      ensures engine.effectStack == old(engine.effectStack) && world.runLog == old(world.runLog)
      ensures engine.shouldTrack == on
    {
      if on {
        engine.EnableTracking();
      } else {
        engine.PauseTracking();
      }
      Stepped();
    }

    /** The run-set of a trigger request; the target's kind is read from the heap. */
    method EffectsFor(req: TriggerRequest) returns (r: Result<set<EffectId>, JsError>)
      requires Valid()
      ensures r == RunSet(engine.bucket, engine.sets, engine.activeEffect, req.target, req.key, req.ty,
                          KindOf(store.cells, req.target), req.newVal)
      ensures r.Success? ==> r.value <= engine.options.Keys
    {
      r := engine.EffectsToRun(req.target, req.key, req.ty, KindOf(store.cells, req.target), req.newVal);
      RunSetRegistered(engine.bucket, engine.sets, engine.activeEffect, req.target, req.key, req.ty,
                       KindOf(store.cells, req.target), req.newVal, engine.options.Keys);
    }

    /** The start of `effectFn()`: cleanup, push, make active, and the run is logged. */
    method Begin(e: EffectId)
      requires Valid() && e in engine.options
      modifies engine, world
      ensures Valid() && Grows()
      ensures engine.effectStack == old(engine.effectStack) + [e] && engine.activeEffect == Some(e)
      ensures world.runLog == old(world.runLog) + [e] && world.scheduled == old(world.scheduled)
      ensures engine.options == old(engine.options) && engine.shouldTrack == old(engine.shouldTrack)
    {
      world.runLog := world.runLog + [e];
      StartRun(e);
    }

    /** The engine's part of the start of `effectFn()`. */
    method StartRun(e: EffectId)
      requires Valid() && e in engine.options
      modifies engine
      ensures Valid() && Grows()
      ensures engine.effectStack == old(engine.effectStack) + [e] && engine.activeEffect == Some(e)
      ensures world.runLog == old(world.runLog)
      ensures engine.options == old(engine.options) && engine.shouldTrack == old(engine.shouldTrack)
    {
      engine.BeginRun(e);
      Stepped();
    }

    /** The end of `effectFn()` after the function returned: pop and restore the active effect. */
    method End()
      requires Valid() && engine.effectStack != []
      modifies engine
      ensures Valid() && Grows()
      ensures engine.effectStack == old(engine.effectStack)[..|old(engine.effectStack)| - 1] && world.runLog == old(world.runLog)
      ensures engine.options == old(engine.options) && engine.shouldTrack == old(engine.shouldTrack)
    {
      engine.EndRun();
      Stepped();
    }

    /** The scheduler of the computed object `a`: whether `trigger(obj, 'value')` follows. */
    method MarkDirty(a: Addr) returns (fire: bool)
      requires Valid() && a in computeds
      modifies computeds[a]
      ensures Valid() && Grows()
      ensures engine.effectStack == old(engine.effectStack) && world.runLog == old(world.runLog)
      ensures computeds[a].dirty && computeds[a].value == old(computeds[a].value)
      ensures fire <==> !old(computeds[a].dirty)
    {
      fire := computeds[a].Schedule();
      Stepped();
    }

    /** `value = effectFn(); dirty = false` and then `track(obj, 'value')`, for the computed object `a`. */
    method CacheAndTrack(a: Addr, v: Value)
      requires Valid() && a in computeds
      modifies computeds[a], engine
      ensures Valid() && Grows()
      ensures engine.effectStack == old(engine.effectStack) && world.runLog == old(world.runLog)
      ensures !computeds[a].dirty && computeds[a].value == v
      ensures engine.activeEffect == old(engine.activeEffect) && engine.shouldTrack == old(engine.shouldTrack)
      ensures engine.IsTracking() ==> engine.Subscribed(engine.activeEffect.value, a, ValueKey)
    {
      computeds[a].Recomputed(v);
      engine.Track(a, ValueKey);
      Stepped();
    }

    /** `track(obj, 'value')` of the computed object `a`. */
    method TrackComputed(a: Addr)
      requires Valid() && a in computeds
      modifies engine
      ensures Valid() && Grows()
      ensures engine.effectStack == old(engine.effectStack) && world.runLog == old(world.runLog)
      ensures engine.activeEffect == old(engine.activeEffect) && engine.shouldTrack == old(engine.shouldTrack)
      ensures engine.IsTracking() ==> engine.Subscribed(engine.activeEffect.value, a, ValueKey)
    {
      engine.Track(a, ValueKey);
      Stepped();
    }

    /** The watch scheduler after the getter returned `v`: the callback call is recorded. */
    method Fire(w: nat, v: Value)
      requires Valid() && w in watchers
      modifies watchers[w], world
      ensures Valid() && Grows()
      ensures engine.effectStack == old(engine.effectStack) && world.runLog == old(world.runLog)
      ensures world.callbacks == old(world.callbacks) + [Callback(watchers[w].cb, v, old(watchers[w].oldValue))]
      ensures watchers[w].oldValue == v
    {
      var n, o := watchers[w].Fired(v);
      world.callbacks := world.callbacks + [Callback(watchers[w].cb, n, o)];
      Stepped();
    }

    // The interpreter. Every call takes one unit of fuel; each method keeps `Valid` and `Grows`,
    // and when it completes without a fault the effect stack is where it was.

    /** Evaluates an expression of user code, left to right. */
    method Eval(e: Expr, fuel: nat) returns (r: Result<Value, Fault>)
      requires Valid()
      modifies Repr, world
      ensures Valid() && Grows()
      ensures r.Success? ==> engine.effectStack == old(engine.effectStack)
      decreases fuel
    {
      if fuel == 0 {
        return Failure(OutOfFuel);
      }
      match e {
        case Lit(v) =>
          return Success(v);
        case Var(x) =>
          if x !in world.vars {
            return Failure(Thrown(ReferenceError));
          }
          return Success(world.vars[x]);
        case Get(o, k) =>
          r := EvalGet(o, k, fuel - 1);
        case In(k, o) =>
          r := EvalIn(k, o, fuel - 1);
        case Plus(x, y) =>
          var pair :- EvalPair(x, y, fuel - 1);
          var xv, yv := pair.0, pair.1;
          return Add(xv, yv);
        case Same(x, y) =>
          var pair :- EvalPair(x, y, fuel - 1);
          var xv, yv := pair.0, pair.1;
          return Success(Bool(StrictEquals(xv, yv)));
        case Not(x) =>
          var xv :- Eval(x, fuel - 1);
          return Success(Bool(!Truthy(xv)));
        case Cond(t, y, n) =>
          r := EvalCond(t, y, n, fuel - 1);
        case Call(o, m, args) =>
          r := EvalCall(o, m, args, fuel - 1);
        case IsRefOf(x) =>
          r := EvalUnary(e, fuel - 1);
        case UnRefOf(x) =>
          r := EvalUnary(e, fuel - 1);
        case IsReactiveOf(x) =>
          r := EvalUnary(e, fuel - 1);
        case IsReadonlyOf(x) =>
          r := EvalUnary(e, fuel - 1);
      }
    }

    /** `obj[key]`. */
    method EvalGet(o: Expr, k: Expr, fuel: nat) returns (r: Result<Value, Fault>)
      requires Valid()
      modifies Repr, world
      ensures Valid() && Grows()
      ensures r.Success? ==> engine.effectStack == old(engine.effectStack)
      decreases fuel
    {
      if fuel == 0 {
        return Failure(OutOfFuel);
      }
      var pair :- EvalPair(o, k, fuel - 1);
      var ov, kv := pair.0, pair.1;
      var key :- PropertyKey(kv);
      r := GetOp(ov, key, fuel - 1);
    }

    /** `key in obj`. */
    method EvalIn(k: Expr, o: Expr, fuel: nat) returns (r: Result<Value, Fault>)
      requires Valid()
      modifies Repr, world
      ensures Valid() && Grows()
      ensures r.Success? ==> engine.effectStack == old(engine.effectStack)
      decreases fuel
    {
      if fuel == 0 {
        return Failure(OutOfFuel);
      }
      var pair :- EvalPair(k, o, fuel - 1);
      var kv, ov := pair.0, pair.1;
      var key :- PropertyKey(kv);
      var b :- HasOp(ov, key, fuel - 1);
      return Success(Bool(b));
    }

    /** Two operands, left then right. */
    method EvalPair(x: Expr, y: Expr, fuel: nat) returns (r: Result<(Value, Value), Fault>)
      requires Valid()
      modifies Repr, world
      ensures Valid() && Grows()
      ensures r.Success? ==> engine.effectStack == old(engine.effectStack)
      decreases fuel
    {
      if fuel == 0 {
        return Failure(OutOfFuel);
      }
      var xv :- Eval(x, fuel - 1);
      var yv :- Eval(y, fuel - 1);
      return Success((xv, yv));
    }

    /** `test ? yes : no`. */
    method EvalCond(t: Expr, y: Expr, n: Expr, fuel: nat) returns (r: Result<Value, Fault>)
      requires Valid()
      modifies Repr, world
      ensures Valid() && Grows()
      ensures r.Success? ==> engine.effectStack == old(engine.effectStack)
      decreases fuel
    {
      if fuel == 0 {
        return Failure(OutOfFuel);
      }
      var tv :- Eval(t, fuel - 1);
      if Truthy(tv) {
        r := Eval(y, fuel - 1);
      } else {
        r := Eval(n, fuel - 1);
      }
    }

    /** `obj.m(...args)`: the object, then the method, then the arguments. */
    method EvalCall(o: Expr, m: ArrayMethod, args: seq<Expr>, fuel: nat) returns (r: Result<Value, Fault>)
      requires Valid()
      modifies Repr, world
      ensures Valid() && Grows()
      ensures r.Success? ==> engine.effectStack == old(engine.effectStack)
      decreases fuel
    {
      if fuel == 0 {
        return Failure(OutOfFuel);
      }
      var ov :- Eval(o, fuel - 1);
      var instrumented :- LookUpMethod(ov, m, fuel - 1);
      var argv :- EvalArgs(args, fuel - 1);
      if instrumented {
        ghost var receivers, first;
        r, receivers, first := CallInstrumented(ov, m, argv, fuel - 1);
      } else {
        r := CallOriginal(ov, m, argv, fuel - 1);
      }
    }

    /** `isRef(x)`, `unRef(x)`, `isReactive(x)` and `isReadonly(x)`. */
    method EvalUnary(e: Expr, fuel: nat) returns (r: Result<Value, Fault>)
      requires e.IsRefOf? || e.UnRefOf? || e.IsReactiveOf? || e.IsReadonlyOf?
      requires Valid()
      modifies Repr, world
      ensures Valid() && Grows()
      ensures r.Success? ==> engine.effectStack == old(engine.effectStack)
      decreases fuel
    {
      if fuel == 0 {
        return Failure(OutOfFuel);
      }
      var xv :- Eval(e.operand, fuel - 1);
      if e.IsRefOf? {
        var b :- IsRefOp(xv, fuel - 1);
        return Success(Bool(b));
      } else if e.UnRefOf? {
        r := UnRefOp(xv, fuel - 1);
      } else {
        var flag :- GetOp(xv, if e.IsReactiveOf? then IsReactiveFlag else IsReadonlyFlag, fuel - 1);
        return Success(Bool(Truthy(flag)));
      }
    }

    /** Evaluates call arguments, left to right. */
    method EvalArgs(args: seq<Expr>, fuel: nat) returns (r: Result<seq<Value>, Fault>)
      requires Valid()
      modifies Repr, world
      ensures Valid() && Grows()
      ensures r.Success? ==> engine.effectStack == old(engine.effectStack)
      decreases fuel
      ensures r.Success? ==> |r.value| == |args|
    {
      if fuel == 0 {
        return Failure(OutOfFuel);
      }
      var vs: seq<Value> := [];
      while |vs| < |args|
        invariant |vs| <= |args|
        invariant Valid() && Grows()
        invariant engine.effectStack == old(engine.effectStack)
        decreases |args| - |vs|
      {
        var v :- Eval(args[|vs|], fuel - 1);
        vs := vs + [v];
      }
      return Success(vs);
    }

    /** Runs statements in order, stopping at the first fault. */
    method ExecBlock(ss: seq<Stmt>, fuel: nat) returns (r: Result<(), Fault>)
      requires Valid()
      modifies Repr, world
      ensures Valid() && Grows()
      ensures r.Success? ==> engine.effectStack == old(engine.effectStack)
      decreases fuel
    {
      if fuel == 0 {
        return Failure(OutOfFuel);
      }
      var i := 0;
      while i < |ss|
        invariant Valid() && Grows()
        invariant engine.effectStack == old(engine.effectStack)
      {
        var u :- Exec(ss[i], fuel - 1);
        i := i + 1;
      }
      return Success(());
    }

    /** Runs one statement of user code. */
    method Exec(st: Stmt, fuel: nat) returns (r: Result<(), Fault>)
      requires Valid()
      modifies Repr, world
      ensures Valid() && Grows()
      ensures r.Success? ==> engine.effectStack == old(engine.effectStack)
      decreases fuel
    {
      if fuel == 0 {
        return Failure(OutOfFuel);
      }
      match st {
        case Assign(x, e) =>
          var v :- Eval(e, fuel - 1);
          world.vars := world.vars[x := v];
          return Success(());
        case Put(o, k, e) =>
          r := ExecPut(o, k, e, fuel - 1);
        case Delete(o, k) =>
          var pair :- EvalPair(o, k, fuel - 1);
          var ov, kv := pair.0, pair.1;
          var key :- PropertyKey(kv);
          r := DeleteOp(ov, key, fuel - 1);
        case ForIn(x, o, body) =>
          r := ExecForIn(x, o, body, fuel - 1);
        case Do(e) =>
          var v :- Eval(e, fuel - 1);
          return Success(());
        case If(t, y, n) =>
          r := ExecIf(t, y, n, fuel - 1);
        case NestedEffect(body) =>
          r := ExecNestedEffect(body, fuel - 1);
      }
    }

    /** `obj[key] = e`: the object, the key, the value, then the write with the object as receiver. */
    method ExecPut(o: Expr, k: Expr, e: Expr, fuel: nat) returns (r: Result<(), Fault>)
      requires Valid()
      modifies Repr, world
      ensures Valid() && Grows()
      ensures r.Success? ==> engine.effectStack == old(engine.effectStack)
      decreases fuel
    {
      if fuel == 0 {
        return Failure(OutOfFuel);
      }
      var pair :- EvalPair(o, k, fuel - 1);
      var ov, kv := pair.0, pair.1;
      var key :- PropertyKey(kv);
      var v :- Eval(e, fuel - 1);
      r := SetOp(ov, key, v, ov, fuel - 1);
    }

    /** `for (x in o) body`, over the keys enumerated when the loop starts. */
    method ExecForIn(x: string, o: Expr, body: seq<Stmt>, fuel: nat) returns (r: Result<(), Fault>)
      requires Valid()
      modifies Repr, world
      ensures Valid() && Grows()
      ensures r.Success? ==> engine.effectStack == old(engine.effectStack)
      decreases fuel
    {
      if fuel == 0 {
        return Failure(OutOfFuel);
      }
      var ov :- Eval(o, fuel - 1);
      var keys :- ForInKeys(ov, fuel - 1);
      while keys != {}
        invariant Valid() && Grows()
        invariant forall k :: k in keys ==> !k.SymKey?
        invariant engine.effectStack == old(engine.effectStack)
        decreases keys
      {
        var k :| k in keys;
        keys := keys - {k};
        var u :- ForInStep(x, k, body, fuel - 1);
      }
      return Success(());
    }

    /** One turn of `for (x in o) body`: `x` is bound to the key, as a string, and the body runs. */
    method ForInStep(x: string, k: Key, body: seq<Stmt>, fuel: nat) returns (r: Result<(), Fault>)
      requires Valid() && !k.SymKey?
      modifies Repr, world
      ensures Valid() && Grows()
      ensures r.Success? ==> engine.effectStack == old(engine.effectStack)
      decreases fuel
    {
      if fuel == 0 {
        return Failure(OutOfFuel);
      }
      world.vars := world.vars[x := KeyToValue(k)];
      r := ExecBlock(body, fuel - 1);
    }

    /** `if (test) yes else no`. */
    method ExecIf(t: Expr, y: seq<Stmt>, n: seq<Stmt>, fuel: nat) returns (r: Result<(), Fault>)
      requires Valid()
      modifies Repr, world
      ensures Valid() && Grows()
      ensures r.Success? ==> engine.effectStack == old(engine.effectStack)
      decreases fuel
    {
      if fuel == 0 {
        return Failure(OutOfFuel);
      }
      var tv :- Eval(t, fuel - 1);
      if Truthy(tv) {
        r := ExecBlock(y, fuel - 1);
      } else {
        r := ExecBlock(n, fuel - 1);
      }
    }

    /** `effect(() => { body })` inside user code: registers the effect and runs it at once. */
    method ExecNestedEffect(body: seq<Stmt>, fuel: nat) returns (r: Result<(), Fault>)
      requires Valid()
      modifies Repr, world
      ensures Valid() && Grows()
      ensures r.Success? ==> engine.effectStack == old(engine.effectStack)
      decreases fuel
    {
      if fuel == 0 {
        return Failure(OutOfFuel);
      }
      var e := NewEffectWith(Block(body, Lit(Undefined)), EffectOptions(false, NoScheduler));
      var v :- RunEffect(e, fuel - 1);
      return Success(());
    }

    /** `v[key]`: the `get` trap of a wrapper, a ref's or computed's accessor, or an ordinary read. */
    method GetOp(v: Value, key: Key, fuel: nat) returns (r: Result<Value, Fault>)
      requires Valid()
      modifies Repr, world
      ensures Valid() && Grows()
      ensures r.Success? ==> engine.effectStack == old(engine.effectStack)
      decreases fuel
      ensures (v == Undefined || v == Null) ==> r.Failure?
      ensures !v.Obj? && r.Success? ==> r.value == PrimitiveProperty(v, key)
      ensures fuel > 0 && Nullish(v) ==> r == Failure(Thrown(TypeError))
      ensures fuel > 0 && !v.Obj? && !Nullish(v) ==> r == Success(PrimitiveProperty(v, key)) && Quiet()
      ensures fuel > 0 && old(PlainAt(v)) ==> r == Success(RawGet(old(store.cells[v.addr].props), key)) && Quiet()
      ensures fuel > 0 && old(RefAt(v)) && key == IsRefKey ==> r == Success(Bool(true)) && Quiet()
      ensures fuel > 0 && old(RefAt(v)) && key == ValueKey ==> r == Success(old(refs[v.addr].value))
      ensures fuel > 0 && old(WrapperAt(v)) && key == RawFlag ==> r == Success(Obj(old(store.cells[v.addr].target)))
      ensures fuel > 0 && old(ProxyAt(v)) && key == RawFlag && r.Success? ==> r.value == Obj(old(store.cells[v.addr].target))
      ensures fuel > 0 && old(WrapperAt(v)) ==>
                engine.KeepsSubscriptions() && engine.activeEffect == old(engine.activeEffect) && engine.shouldTrack == old(engine.shouldTrack)
      ensures fuel > 0 && old(WrapperAt(v)) && r.Success? && old(engine.IsTracking()) ==>
                var w := old(store.cells[v.addr]);
                ReservedGet(w.target, w.handlers, key).None? && TracksRead(w.handlers, key) ==>
                  engine.Subscribed(old(engine.activeEffect.value), w.target, key)
      ensures fuel > 0 && old(WrapperAt(v)) && key != RawFlag
              && !IsObject(RawGet(old(store.cells[store.cells[v.addr].target].props), key)) ==>
                store.cells == old(store.cells) && (r.Success? ==> !IsObject(r.value))
    {
      if fuel == 0 {
        return Failure(OutOfFuel);
      }
      match v {
        case Undefined =>
          return Failure(Thrown(TypeError));
        case Null =>
          return Failure(Thrown(TypeError));
        case Str(s) =>
          return Success(StringProperty(s, key));
        case Obj(a) =>
          if a !in store.cells {
            return Failure(Unsupported);
          }
          match store.cells[a] {
            case Plain(_, props) =>
              return Success(RawGet(props, key));
            case Proxy(t, h) =>
              r := GetThroughTrap(t, h, key);
            case RefsProxy(t) =>
              r := GetThroughRefs(t, key, fuel - 1);
            case RefObject =>
              r := GetFromRef(a, key);
            case ComputedObject =>
              if a !in computeds {
                return Failure(Unsupported);
              }
              if key == ValueKey {
                r := ReadComputed(a, fuel - 1);
              } else {
                r := Success(Undefined);
              }
          }
        case _ =>
          return Success(Undefined);
      }
    }

    /** The `get` trap of a wrapper; a method of an array read through it is outside the model. */
    method GetThroughTrap(t: Addr, h: Handlers, key: Key) returns (r: Result<Value, Fault>)
      requires Valid()
      modifies engine, store, cache
      ensures Valid() && Grows()
      ensures engine.effectStack == old(engine.effectStack) && world.runLog == old(world.runLog)
      ensures key == RawFlag && t in old(store.cells) && old(store.cells[t]).Plain? ==> r == Success(Obj(t))
      ensures key == RawFlag && r.Success? ==> r.value == Obj(t)
      ensures engine.KeepsSubscriptions() && engine.activeEffect == old(engine.activeEffect) && engine.shouldTrack == old(engine.shouldTrack)
      ensures r.Success? && ReservedGet(t, h, key).None? && old(engine.IsTracking()) && TracksRead(h, key) ==>
                engine.Subscribed(old(engine.activeEffect.value), t, key)
      ensures key != RawFlag && t in old(store.cells) && old(store.cells[t]).Plain? && !IsObject(RawGet(old(store.cells[t]).props, key)) ==>
                store.cells == old(store.cells) && (r.Success? ==> !IsObject(r.value))
    {
      if !(t in store.cells && store.cells[t].Plain?) {
        return Failure(Unsupported);
      }
      var g := HandlerGet(t, h, key);
      if g.ArrayMethodRef? {
        return Failure(Unsupported);
      }
      return Success(g.v);
    }

    /**
     * The `get` trap of `proxyRefs(t)`, `unRef(Reflect.get(t, key))`: the `value` of a ref in the
     * slot, or the slot itself. `unRef` asks `isRef` first, so an empty slot throws.
     */
    method GetThroughRefs(t: Addr, key: Key, fuel: nat) returns (r: Result<Value, Fault>)
      requires Valid()
      modifies Repr, world
      ensures Valid() && Grows()
      ensures r.Success? ==> engine.effectStack == old(engine.effectStack)
      decreases fuel
      ensures fuel > 2 && old(PlainAt(Obj(t))) ==>
                var x := RawGet(old(store.cells[t].props), key);
                && (Nullish(x) ==> r == Failure(Thrown(TypeError)))
                && (!x.Obj? && !Nullish(x) ==> r == Success(x) && Quiet())
                && (old(NonRefPlain(x)) ==> r == Success(x) && Quiet())
                && (old(RefAt(x)) ==> r == Success(old(refs[x.addr].value)))
    {
      if fuel == 0 {
        return Failure(OutOfFuel);
      }
      var x :- GetOp(Obj(t), key, fuel - 1);
      var isRef :- IsRefOp(x, fuel - 1);
      if isRef {
        r := GetOp(x, ValueKey, fuel - 1);
      } else {
        r := Success(x);
      }
    }

    /**
     * A property of a `RefImpl`: the `value` getter, the `__v_isRef` flag and the two slots; the
     * `dep` set is not a value user code can hold.
     */
    method GetFromRef(a: Addr, key: Key) returns (r: Result<Value, Fault>)
      requires Valid()
      modifies engine
      ensures Valid() && Grows()
      ensures engine.effectStack == old(engine.effectStack) && world.runLog == old(world.runLog)
      ensures a in refs && key == IsRefKey ==> r == Success(Bool(true)) && unchanged(engine)
      ensures a in refs && key == ValueKey ==> r == Success(old(refs[a].value))
    {
      if a !in refs {
        return Failure(Unsupported);
      }
      if key == ValueKey {
        var x := RefGet(a);
        return Success(x);
      } else if key == IsRefKey {
        return Success(Bool(true));
      } else if key == Name("_value") {
        return Success(refs[a].value);
      } else if key == Name("_rawValue") {
        return Success(refs[a].rawValue);
      } else if key == Name("dep") {
        return Failure(Unsupported);
      }
      return Success(Undefined);
    }

    /**
     * `v[key] = x` with the given receiver: the `set` trap of a wrapper (a readonly one stores
     * nothing), the `proxyRefs` trap, a ref's setter, or an ordinary write. User code is strict, so
     * a write to a primitive, or to a computed's getter-only `value`, throws.
     */
    method SetOp(v: Value, key: Key, x: Value, receiver: Value, fuel: nat) returns (r: Result<(), Fault>)
      requires Valid()
      modifies Repr, world
      ensures Valid() && Grows()
      ensures r.Success? ==> engine.effectStack == old(engine.effectStack)
      decreases fuel
      ensures fuel > 0 && old(PlainAt(v)) ==>
                var c := old(store.cells[v.addr]);
                match RawSet(c.kind, c.props, key, x)
                case Failure(err) => r == Failure(Thrown(err)) && Quiet()
                case Success(props) => r == Success(()) && store.cells == old(store.cells)[v.addr := Plain(c.kind, props)]
      ensures fuel > 0 && old(WrapperAt(v)) && IsReadonlyHandlers(old(store.cells[v.addr].handlers)) ==> r == Success(()) && Quiet()
      ensures fuel > 1 && old(RefAt(v)) && key == ValueKey ==>
                refs[v.addr].rawValue == ToRaw(old(store.cells), x) || old(engine.sets[refs[v.addr].dep]) != {}
      ensures fuel > 1 && old(RefAt(v)) && key == ValueKey && old(engine.sets[refs[v.addr].dep]) == {} ==>
                r == Success(()) && world.runLog == old(world.runLog)
                && forall b :: b in old(store.cells) ==> b in store.cells && store.cells[b] == old(store.cells[b])
      ensures fuel > 1 && old(RefAt(v)) && key == ValueKey && old(refs[v.addr].rawValue) == ToRaw(old(store.cells), x) ==>
                r == Success(()) && world.runLog == old(world.runLog) && refs[v.addr].rawValue == old(refs[v.addr].rawValue)
      ensures fuel > 2 && old(RefAt(v)) && key == ValueKey && old(refs[v.addr].rawValue) != ToRaw(old(store.cells), x) && r.Success? ==>
                Dispatched(old(engine.sets[refs[v.addr].dep]), old(engine.options), old(world.runLog), world.runLog,
                           old(world.scheduled), world.scheduled)
    {
      if fuel == 0 {
        return Failure(OutOfFuel);
      }
      if !v.Obj? {
        return Failure(Thrown(TypeError));
      }
      var a := v.addr;
      if a !in store.cells {
        return Failure(Unsupported);
      }
      match store.cells[a] {
        case Plain(_, _) =>
          var w := RawWrite(a, key, x);
          if w.Failure? {
            return Failure(Thrown(w.error));
          }
          return Success(());
        case Proxy(t, h) =>
          if !(t in store.cells && store.cells[t].Plain?) {
            return Failure(Unsupported);
          }
          if IsReadonlyHandlers(h) {
            return Success(());
          }
          r := SetThroughTrap(t, key, x, receiver, fuel - 1);
        case RefsProxy(t) =>
          r := SetThroughRefs(t, key, x, receiver, fuel - 1);
        case RefObject =>
          if a !in refs || key != ValueKey {
            return Failure(Unsupported);
          }
          var toRun := RefSet(a, x);
          r := TriggerEffects(toRun, fuel - 1);
        case ComputedObject =>
          if key == ValueKey {
            return Failure(Thrown(TypeError));
          }
          return Failure(Unsupported);
      }
    }

    /**
     * The `set` trap of a mutable wrapper around `t`: the trap writes, then reads `receiver[RAW]`,
     * and triggers only when that is `t` (a request the write made with `t` as receiver is dropped
     * otherwise, which is what the trap would have asked with the real receiver).
     */
    method SetThroughTrap(t: Addr, key: Key, x: Value, receiver: Value, fuel: nat) returns (r: Result<(), Fault>)
      requires t in store.cells && store.cells[t].Plain?
      requires Valid()
      modifies Repr, world
      ensures Valid() && Grows()
      ensures r.Success? ==> engine.effectStack == old(engine.effectStack)
      decreases fuel
    {
      if fuel == 0 {
        return Failure(OutOfFuel);
      }
      var asked := HandlerSet(t, key, x, Obj(t));
      if asked.Failure? {
        return Failure(Thrown(asked.error));
      }
      var receiverRaw :- GetOp(receiver, RawFlag, fuel - 1);
      if asked.value.Some? && receiverRaw == Obj(t) {
        r := Trigger(asked.value.value, fuel - 1);
      } else {
        r := Success(());
      }
    }

    /**
     * The `set` trap of `proxyRefs(t)`: when the slot holds a ref and the new value is not one,
     * the ref's `value` is written; otherwise the slot itself, with the wrapper as receiver. Asking
     * `isRef` of an empty slot throws.
     */
    method SetThroughRefs(t: Addr, key: Key, x: Value, receiver: Value, fuel: nat) returns (r: Result<(), Fault>)
      requires Valid()
      modifies Repr, world
      ensures Valid() && Grows()
      ensures r.Success? ==> engine.effectStack == old(engine.effectStack)
      decreases fuel
      ensures fuel > 4 && old(PlainAt(Obj(t))) ==>
                var c := old(store.cells[t]);
                var slot := RawGet(c.props, key);
                && (Nullish(slot) ==> r == Failure(Thrown(TypeError)))
                && (old(RefAt(slot)) && Nullish(x) ==> r == Failure(Thrown(TypeError)))
                && (old(RefAt(slot)) && !x.Obj? && !Nullish(x) && old(engine.sets[refs[slot.addr].dep]) == {} ==>
                      r == Success(()) && refs[slot.addr].rawValue == x && t in store.cells && store.cells[t] == c)
                && ((old(RefAt(slot)) && old(RefAt(x))) || (!slot.Obj? && !Nullish(slot)) || old(NonRefPlain(slot)) ==>
                      match RawSet(c.kind, c.props, key, x)
                      case Failure(err) => r == Failure(Thrown(err))
                      case Success(props) => r == Success(()) && store.cells == old(store.cells)[t := Plain(c.kind, props)])
    {
      if fuel == 0 {
        return Failure(OutOfFuel);
      }
      var current :- GetOp(Obj(t), key, fuel - 1);
      r := SetRefOrSlot(t, key, current, x, receiver, fuel - 1);
    }

    /** The `set` trap of `proxyRefs(t)` once the slot's value `current` is read. */
    method SetRefOrSlot(t: Addr, key: Key, current: Value, x: Value, receiver: Value, fuel: nat) returns (r: Result<(), Fault>)
      requires Valid()
      modifies Repr, world
      ensures Valid() && Grows()
      ensures r.Success? ==> engine.effectStack == old(engine.effectStack)
      decreases fuel
      ensures fuel > 3 && old(PlainAt(Obj(t))) ==>
                var c := old(store.cells[t]);
                && (Nullish(current) ==> r == Failure(Thrown(TypeError)))
                && (old(RefAt(current)) && Nullish(x) ==> r == Failure(Thrown(TypeError)))
                && (old(RefAt(current)) && !x.Obj? && !Nullish(x) && old(engine.sets[refs[current.addr].dep]) == {} ==>
                      r == Success(()) && refs[current.addr].rawValue == x && t in store.cells && store.cells[t] == c)
                && ((old(RefAt(current)) && old(RefAt(x))) || (!current.Obj? && !Nullish(current)) || old(NonRefPlain(current)) ==>
                      match RawSet(c.kind, c.props, key, x)
                      case Failure(err) => r == Failure(Thrown(err))
                      case Success(props) => r == Success(()) && store.cells == old(store.cells)[t := Plain(c.kind, props)])
    {
      if fuel == 0 {
        return Failure(OutOfFuel);
      }
      var oldIsRef :- IsRefOp(current, fuel - 1);
      if oldIsRef {
        r := SetRefOrReplace(t, key, current, x, receiver, fuel - 1);
      } else {
        r := SetOp(Obj(t), key, x, receiver, fuel - 1);
      }
    }

    /** The `set` trap of `proxyRefs(t)` once the slot is known to hold the ref `current`. */
    method SetRefOrReplace(t: Addr, key: Key, current: Value, x: Value, receiver: Value, fuel: nat) returns (r: Result<(), Fault>)
      requires Valid()
      modifies Repr, world
      ensures Valid() && Grows()
      ensures r.Success? ==> engine.effectStack == old(engine.effectStack)
      decreases fuel
      ensures fuel > 2 && old(PlainAt(Obj(t))) && old(RefAt(current)) ==>
                var c := old(store.cells[t]);
                && (Nullish(x) ==> r == Failure(Thrown(TypeError)))
                && (!x.Obj? && !Nullish(x) && old(engine.sets[refs[current.addr].dep]) == {} ==>
                      r == Success(()) && refs[current.addr].rawValue == x && t in store.cells && store.cells[t] == c)
                && (old(RefAt(x)) ==>
                      match RawSet(c.kind, c.props, key, x)
                      case Failure(err) => r == Failure(Thrown(err))
                      case Success(props) => r == Success(()) && store.cells == old(store.cells)[t := Plain(c.kind, props)])
    {
      if fuel == 0 {
        return Failure(OutOfFuel);
      }
      var newIsRef :- IsRefOp(x, fuel - 1);
      if newIsRef {
        r := SetOp(Obj(t), key, x, receiver, fuel - 1);
      } else {
        r := SetOp(current, ValueKey, x, current, fuel - 1);
      }
    }

    /** `key in v`: the `has` trap of a mutable wrapper, or an own-property test; readonly wrappers have no trap. */
    method HasOp(v: Value, key: Key, fuel: nat) returns (r: Result<bool, Fault>)
      requires Valid()
      modifies Repr, world
      ensures Valid() && Grows()
      ensures r.Success? ==> engine.effectStack == old(engine.effectStack)
      decreases fuel
    {
      if fuel == 0 {
        return Failure(OutOfFuel);
      }
      if !v.Obj? {
        return Failure(Thrown(TypeError));
      }
      var a := v.addr;
      if a !in store.cells {
        return Failure(Unsupported);
      }
      match store.cells[a] {
        case Plain(_, props) =>
          return Success(HasOwn(props, key));
        case Proxy(t, h) =>
          if !(t in store.cells && store.cells[t].Plain?) {
            return Failure(Unsupported);
          }
          if IsReadonlyHandlers(h) {
            return Success(HasOwn(store.cells[t].props, key));
          }
          var b := HandlerHas(t, key);
          return Success(b);
        case RefsProxy(t) =>
          r := HasOp(Obj(t), key, fuel - 1);
        case RefObject =>
          return Success(key in {ValueKey, IsRefKey, Name("_value"), Name("_rawValue"), Name("dep")});
        case ComputedObject =>
          return Success(key == ValueKey);
      }
    }

    /**
     * `delete v[key]` in strict code: the `deleteProperty` trap of a mutable wrapper, or an
     * ordinary delete (readonly wrappers have no trap); a refused delete throws.
     */
    method DeleteOp(v: Value, key: Key, fuel: nat) returns (r: Result<(), Fault>)
      requires Valid()
      modifies Repr, world
      ensures Valid() && Grows()
      ensures r.Success? ==> engine.effectStack == old(engine.effectStack)
      decreases fuel
    {
      if fuel == 0 {
        return Failure(OutOfFuel);
      }
      if v == Undefined || v == Null {
        return Failure(Thrown(TypeError));
      }
      if !v.Obj? || v.addr !in store.cells {
        return Failure(Unsupported);
      }
      var a := v.addr;
      match store.cells[a] {
        case Plain(_, _) =>
          var ok := RawRemove(a, key);
          if !ok {
            return Failure(Thrown(TypeError));
          }
          return Success(());
        case Proxy(t, h) =>
          if !(t in store.cells && store.cells[t].Plain?) {
            return Failure(Unsupported);
          }
          if IsReadonlyHandlers(h) {
            var ok := RawRemove(t, key);
            if !ok {
              return Failure(Thrown(TypeError));
            }
            return Success(());
          }
          var ok, request := HandlerDelete(t, key);
          if request.Some? {
            var u :- Trigger(request.value, fuel - 1);
          }
          if !ok {
            return Failure(Thrown(TypeError));
          }
          return Success(());
        case RefsProxy(t) =>
          r := DeleteOp(Obj(t), key, fuel - 1);
        case RefObject =>
          return Failure(Unsupported);
        case ComputedObject =>
          return Failure(Unsupported);
      }
    }

    /** The own keys of an object: the `ownKeys` trap of a mutable wrapper, or the object's own. */
    method OwnKeysOp(v: Value, fuel: nat) returns (r: Result<set<Key>, Fault>)
      requires Valid()
      modifies Repr, world
      ensures Valid() && Grows()
      ensures r.Success? ==> engine.effectStack == old(engine.effectStack)
      decreases fuel
      ensures fuel > 0 && v.Obj? && WrappedView(old(store.cells), v.addr).Some? ==>
                r == Success(OwnKeys(WrappedView(old(store.cells), v.addr).value.1))
      ensures fuel > 1 && v.Obj? && ForInView(old(store.cells), v.addr).Some? ==>
                r == Success(OwnKeys(ForInView(old(store.cells), v.addr).value.1))
      ensures fuel > 0 && old(WrapperAt(v)) && !IsReadonlyHandlers(old(store.cells[v.addr].handlers)) ==>
                engine.KeepsSubscriptions() && engine.activeEffect == old(engine.activeEffect) && engine.shouldTrack == old(engine.shouldTrack)
                && store.cells == old(store.cells)
                && (old(engine.IsTracking()) ==> engine.Subscribed(old(engine.activeEffect.value), old(store.cells[v.addr].target), IterateKey))
    {
      if fuel == 0 {
        return Failure(OutOfFuel);
      }
      if !v.Obj? || v.addr !in store.cells {
        return Failure(Unsupported);
      }
      var a := v.addr;
      match store.cells[a] {
        case Plain(_, props) =>
          return Success(OwnKeys(props));
        case Proxy(t, h) =>
          if !(t in store.cells && store.cells[t].Plain?) {
            return Failure(Unsupported);
          }
          if IsReadonlyHandlers(h) {
            return Success(OwnKeys(store.cells[t].props));
          }
          var keys := HandlerOwnKeys(t);
          return Success(keys);
        case RefsProxy(t) =>
          r := OwnKeysOp(Obj(t), fuel - 1);
        case RefObject =>
          return Failure(Unsupported);
        case ComputedObject =>
          return Failure(Unsupported);
      }
    }

    /** The keys `for (k in v)` visits: none for `undefined` and `null`, the enumerable own keys of an object. */
    method ForInKeys(v: Value, fuel: nat) returns (r: Result<set<Key>, Fault>)
      requires Valid()
      modifies Repr, world
      ensures Valid() && Grows()
      ensures r.Success? ==> engine.effectStack == old(engine.effectStack)
      decreases fuel
      ensures r.Success? ==> forall k :: k in r.value ==> !k.SymKey?
      ensures fuel > 0 && Nullish(v) ==> r == Success({})
      ensures fuel > 2 && v.Obj? && ForInView(old(store.cells), v.addr).Some? ==>
                var view := ForInView(old(store.cells), v.addr).value;
                r == Success(EnumerableKeys(view.0, OwnKeys(view.1)))
      ensures fuel > 1 && old(WrapperAt(v)) && !IsReadonlyHandlers(old(store.cells[v.addr].handlers)) ==>
                engine.KeepsSubscriptions() && engine.activeEffect == old(engine.activeEffect) && engine.shouldTrack == old(engine.shouldTrack)
                && store.cells == old(store.cells)
                && (old(engine.IsTracking()) ==> engine.Subscribed(old(engine.activeEffect.value), old(store.cells[v.addr].target), IterateKey))
    {
      if fuel == 0 {
        return Failure(OutOfFuel);
      }
      if v == Undefined || v == Null {
        return Success({});
      }
      if !v.Obj? {
        return Failure(Unsupported);
      }
      var view := ForInView(store.cells, v.addr);
      var keys :- OwnKeysOp(v, fuel - 1);
      return Success(EnumerableKeys(if view.Some? then view.value.0 else PlainObject, keys));
    }

    /** `isRef(v)`: reads `v.__v_isRef`, which throws for `undefined` and `null`. */
    method IsRefOp(v: Value, fuel: nat) returns (r: Result<bool, Fault>)
      requires Valid()
      modifies Repr, world
      ensures Valid() && Grows()
      ensures r.Success? ==> engine.effectStack == old(engine.effectStack)
      decreases fuel
      ensures (v == Undefined || v == Null) ==> r.Failure?
      ensures r == Success(true) ==> v.Obj?
      ensures fuel > 1 && Nullish(v) ==> r == Failure(Thrown(TypeError))
      ensures fuel > 1 && !v.Obj? && !Nullish(v) ==> r == Success(false) && Quiet()
      ensures fuel > 1 && old(RefAt(v)) ==> r == Success(true) && Quiet()
      ensures fuel > 1 && old(PlainAt(v)) ==> r == Success(Truthy(RawGet(old(store.cells[v.addr].props), IsRefKey))) && Quiet()
    {
      if fuel == 0 {
        return Failure(OutOfFuel);
      }
      var flag :- GetOp(v, IsRefKey, fuel - 1);
      match IsRef(v, flag) {
        case Success(b) => return Success(b);
        case Failure(err) => return Failure(Thrown(err));
      }
    }

    /** `unRef(v)`: `v.value` for a ref, `v` otherwise. */
    method UnRefOp(v: Value, fuel: nat) returns (r: Result<Value, Fault>)
      requires Valid()
      modifies Repr, world
      ensures Valid() && Grows()
      ensures r.Success? ==> engine.effectStack == old(engine.effectStack)
      decreases fuel
      ensures !v.Obj? && r.Success? ==> r.value == v
      ensures fuel > 2 && Nullish(v) ==> r == Failure(Thrown(TypeError))
      ensures fuel > 2 && !v.Obj? && !Nullish(v) ==> r == Success(v) && Quiet()
      ensures fuel > 2 && old(RefAt(v)) ==> r == Success(old(refs[v.addr].value))
      ensures fuel > 2 && old(NonRefPlain(v)) ==> r == Success(v) && Quiet()
    {
      if fuel == 0 {
        return Failure(OutOfFuel);
      }
      var isRef :- IsRefOp(v, fuel - 1);
      if isRef {
        r := GetOp(v, ValueKey, fuel - 1);
      } else {
        r := Success(v);
      }
    }

    /**
     * `trigger(target, key, type, newVal)`: builds the run-set, then `triggerEffects`, which runs
     * each of its effects without a scheduler and hands each with a user scheduler to it.
     */
    method Trigger(req: TriggerRequest, fuel: nat) returns (r: Result<(), Fault>)
      requires Valid()
      modifies Repr, world
      ensures Valid() && Grows()
      ensures r.Success? ==> engine.effectStack == old(engine.effectStack)
      decreases fuel
      ensures fuel > 2 && r.Success? ==>
                var rs := RunSet(old(engine.bucket), old(engine.sets), old(engine.activeEffect), req.target, req.key,
                                 req.ty, KindOf(old(store.cells), req.target), req.newVal);
                rs.Success? && Dispatched(rs.value, old(engine.options), old(world.runLog), world.runLog, old(world.scheduled), world.scheduled)
    {
      if fuel == 0 {
        return Failure(OutOfFuel);
      }
      var toRun := EffectsFor(req);
      if toRun.Failure? {
        return Failure(Thrown(toRun.error));
      }
      r := TriggerEffects(toRun.value, fuel - 1);
    }

    /**
     * `triggerEffects`: every effect of the snapshot runs, or is handed to its scheduler; an empty
     * snapshot does nothing.
     */
    method TriggerEffects(effects: set<EffectId>, fuel: nat) returns (r: Result<(), Fault>)
      requires effects <= engine.options.Keys
      requires Valid()
      modifies Repr, world
      ensures Valid() && Grows()
      ensures r.Success? ==> engine.effectStack == old(engine.effectStack)
      decreases fuel
      ensures fuel > 0 && effects == {} ==> r == Success(()) && Quiet()
      ensures fuel > 1 && r.Success? ==>
                Dispatched(effects, old(engine.options), old(world.runLog), world.runLog, old(world.scheduled), world.scheduled)
    {
      if fuel == 0 {
        return Failure(OutOfFuel);
      }
      var rest := effects;
      while rest != {}
        invariant Valid() && Grows()
        invariant engine.effectStack == old(engine.effectStack)
        invariant rest <= effects && rest <= engine.options.Keys
        invariant rest == effects ==> Quiet()
        invariant fuel > 1 ==>
                    Dispatched(effects - rest, old(engine.options), old(world.runLog), world.runLog, old(world.scheduled), world.scheduled)
        decreases rest
      {
        var e :| e in rest;
        ghost var log, queue := world.runLog, world.scheduled;
        var u :- RunOrSchedule(e, fuel - 1);
        if fuel > 1 {
          DispatchedOneMore(effects - rest, e, old(engine.options), old(world.runLog), log, world.runLog,
                            old(world.scheduled), queue, world.scheduled);
          OneMoreDone(effects, rest, e);
        }
        rest := rest - {e};
      }
      return Success(());
    }

    /**
     * One effect of a trigger: run it when it has no scheduler; a user scheduler's call is
     * recorded; the schedulers of `computed` and `watch` run here.
     */
    method RunOrSchedule(e: EffectId, fuel: nat) returns (r: Result<(), Fault>)
      requires e in engine.options
      requires Valid()
      modifies Repr, world
      ensures Valid() && Grows()
      ensures r.Success? ==> engine.effectStack == old(engine.effectStack)
      decreases fuel
      ensures fuel > 0 && old(engine.options[e].scheduler) == NoScheduler ==> old(world.runLog) + [e] <= world.runLog
      ensures fuel > 0 && old(engine.options[e].scheduler) == UserScheduler ==>
                r == Success(()) && world.scheduled == old(world.scheduled) + [e] && world.runLog == old(world.runLog)
    {
      if fuel == 0 {
        return Failure(OutOfFuel);
      }
      match engine.options[e].scheduler {
        case NoScheduler =>
          var v :- RunEffect(e, fuel - 1);
          return Success(());
        case UserScheduler =>
          world.scheduled := world.scheduled + [e];
          return Success(());
        case ComputedScheduler(c) =>
          r := ScheduleComputed(c, fuel - 1);
        case WatchScheduler(w) =>
          r := ScheduleWatcher(w, fuel - 1);
      }
    }

    /**
     * `effectFn()`: cleanup, push and activate, run the function, then pop and restore. A function
     * that throws leaves the stack and the active effect as they were while it ran.
     */
    method RunEffect(e: EffectId, fuel: nat) returns (r: Result<Value, Fault>)
      requires e in engine.options
      requires Valid()
      modifies Repr, world
      ensures Valid() && Grows()
      ensures r.Success? ==> engine.effectStack == old(engine.effectStack)
      decreases fuel
      ensures old(world.runLog) + [e] <= world.runLog
      ensures r.Success? ==> engine.activeEffect == old(engine.activeEffect)
    {
      if fuel == 0 {
        Begin(e);
        return Failure(OutOfFuel);
      }
      Begin(e);
      var v :- RunBody(bodies[e], fuel - 1);
      End();
      return Success(v);
    }

    /** Runs an effect's function: user statements then the returned expression, or `traverse(source)`. */
    method RunBody(b: Body, fuel: nat) returns (r: Result<Value, Fault>)
      requires Valid()
      modifies Repr, world
      ensures Valid() && Grows()
      ensures r.Success? ==> engine.effectStack == old(engine.effectStack)
      decreases fuel
    {
      if fuel == 0 {
        return Failure(OutOfFuel);
      }
      match b {
        case Block(ss, result) =>
          var u :- ExecBlock(ss, fuel - 1);
          r := Eval(result, fuel - 1);
        case TraverseSource(source) =>
          var seen :- Traverse(source, {}, fuel - 1);
          return Success(if IsObject(source) then source else Undefined);
      }
    }

    /**
     * `traverse(value, seen)`: reads every property `for ... in` visits, recursively, skipping
     * primitives and objects already seen; returns the objects seen.
     */
    method Traverse(v: Value, seen: set<Addr>, fuel: nat) returns (r: Result<set<Addr>, Fault>)
      requires Valid()
      modifies Repr, world
      ensures Valid() && Grows()
      ensures r.Success? ==> engine.effectStack == old(engine.effectStack)
      decreases fuel
      ensures r.Success? ==> seen <= r.value && (v.Obj? ==> v.addr in r.value)
      ensures (!v.Obj? || v.addr in seen) && fuel > 0 ==> r == Success(seen)
      ensures r.Success? && fuel > 3 && FlatWrapper(old(store.cells), v) && v.addr !in seen && old(engine.IsTracking()) ==>
                var w := old(store.cells[v.addr]);
                var target := old(store.cells[w.target]);
                engine.Subscribed(old(engine.activeEffect.value), w.target, IterateKey)
                && WatchesIn(engine.bucket, engine.sets, old(engine.activeEffect.value), w.target, w.handlers,
                             EnumerableKeys(target.kind, OwnKeys(target.props)))
    {
      if fuel == 0 {
        return Failure(OutOfFuel);
      }
      if !v.Obj? || v.addr in seen {
        return Success(seen);
      }
      ghost var flat := fuel > 3 && FlatWrapper(store.cells, v) && engine.IsTracking();
      if flat {
        FlatView(store.cells, v);
      }
      var keys :- ForInKeys(v, fuel - 1);
      ghost var b1, s1 := engine.bucket, engine.sets;
      if flat {
        FlatEnumerable(store.cells, v, keys);
      }
      r := VisitKeys(v, keys, seen + {v.addr}, fuel);
      if flat && r.Success? {
        KeptSubscribed(b1, s1, engine.bucket, engine.sets, old(engine.activeEffect.value), old(store.cells[v.addr].target), IterateKey);
      }
    }

    /**
     * The loop `for (const k in value) traverse(value[k], seen)` over the keys `for ... in` gave.
     * When `v` is flat, the loop changes no object and leaves a tracking reader subscribed to every
     * key the trap does not answer itself.
     */
    method VisitKeys(v: Value, keys: set<Key>, seen: set<Addr>, fuel: nat) returns (r: Result<set<Addr>, Fault>)
      requires Valid()
      modifies Repr, world
      ensures Valid() && Grows()
      ensures r.Success? ==> engine.effectStack == old(engine.effectStack)
      decreases fuel, 1
      ensures r.Success? ==> seen <= r.value
      ensures fuel > 1 && FlatKeys(old(store.cells), v, keys) ==>
                store.cells == old(store.cells) && engine.activeEffect == old(engine.activeEffect)
                && engine.shouldTrack == old(engine.shouldTrack) && engine.KeepsSubscriptions()
      ensures r.Success? && fuel > 1 && FlatKeys(old(store.cells), v, keys) && old(engine.IsTracking()) ==>
                WatchesIn(engine.bucket, engine.sets, old(engine.activeEffect.value), old(store.cells[v.addr].target),
                          old(store.cells[v.addr].handlers), keys)
    {
      var acc := seen;
      var todo := keys;
      ghost var flat := fuel > 1 && FlatKeys(store.cells, v, keys);
      ghost var b0, s0 := engine.bucket, engine.sets;
      while todo != {}
        invariant Valid() && Grows()
        invariant engine.effectStack == old(engine.effectStack)
        invariant seen <= acc && todo <= keys
        invariant flat ==> store.cells == old(store.cells) && engine.activeEffect == old(engine.activeEffect)
                           && engine.shouldTrack == old(engine.shouldTrack)
        invariant flat ==> KeepsSubscribers(b0, s0, engine.bucket, engine.sets)
        invariant flat && old(engine.IsTracking()) ==>
                    WatchesIn(engine.bucket, engine.sets, old(engine.activeEffect.value), old(store.cells[v.addr].target),
                              old(store.cells[v.addr].handlers), keys - todo)
        decreases todo
      {
        var k :| k in todo;
        ghost var done := keys - todo;
        OneMoreDone(keys, todo, k);
        todo := todo - {k};
        ghost var b1, s1 := engine.bucket, engine.sets;
        if flat {
          FlatKeysOne(store.cells, v, keys, k);
        }
        acc :- VisitKey(v, k, acc, fuel);
        if flat {
          KeepsTransitive(b0, s0, b1, s1, engine.bucket, engine.sets);
          if old(engine.IsTracking()) {
            WatchOneMore(b1, s1, engine.bucket, engine.sets, old(engine.activeEffect.value), old(store.cells[v.addr].target),
                         old(store.cells[v.addr].handlers), done, k);
          }
        }
      }
      return Success(acc);
    }

    /**
     * One turn of the loop in `traverse`: `traverse(value[k], seen)`. When `v` is flat, the read goes
     * through the trap of `v`, subscribes a tracking reader to `k`, and changes no object.
     */
    method VisitKey(v: Value, k: Key, acc: set<Addr>, fuel: nat) returns (r: Result<set<Addr>, Fault>)
      requires Valid()
      modifies Repr, world
      ensures Valid() && Grows()
      ensures r.Success? ==> engine.effectStack == old(engine.effectStack)
      decreases fuel, 0
      ensures r.Success? ==> acc <= r.value
      ensures fuel > 1 && FlatKeys(old(store.cells), v, {k}) ==>
                var w := old(store.cells[v.addr]);
                store.cells == old(store.cells) && engine.activeEffect == old(engine.activeEffect)
                && engine.shouldTrack == old(engine.shouldTrack) && engine.KeepsSubscriptions()
                && (r.Success? && old(engine.IsTracking()) && ReservedGet(w.target, w.handlers, k).None? ==>
                      engine.Subscribed(old(engine.activeEffect.value), w.target, k))
    {
      if fuel == 0 {
        return Failure(OutOfFuel);
      }
      var x :- GetOp(v, k, fuel - 1);
      if IsObject(x) {
        r := Traverse(x, acc, fuel - 1);
      } else {
        r := Success(acc);
      }
    }

    /** The `value` getter of a computed object: recompute when dirty, then `track(obj, 'value')`. */
    method ReadComputed(a: Addr, fuel: nat) returns (r: Result<Value, Fault>)
      requires a in computeds
      requires Valid()
      modifies Repr, world
      ensures Valid() && Grows()
      ensures r.Success? ==> engine.effectStack == old(engine.effectStack)
      decreases fuel
      ensures !old(computeds[a].dirty) && fuel > 0 ==>
                r == Success(old(computeds[a].value)) && world.runLog == old(world.runLog)
      ensures r.Success? ==> !computeds[a].dirty && r.value == computeds[a].value
      ensures r.Success? && engine.IsTracking() ==> engine.Subscribed(engine.activeEffect.value, a, ValueKey)
      ensures fuel > 1 && old(computeds[a].dirty) ==> old(world.runLog) + [computeds[a].effect] <= world.runLog
    {
      if fuel == 0 {
        return Failure(OutOfFuel);
      }
      r := Refresh(a, fuel - 1);
    }

    /**
     * The getter after its fuel check: `if (dirty) { value = effectFn(); dirty = false }`, then
     * `track(obj, 'value')` and the cached value.
     */
    method Refresh(a: Addr, fuel: nat) returns (r: Result<Value, Fault>)
      requires a in computeds
      requires Valid()
      modifies Repr, world
      ensures Valid() && Grows()
      ensures r.Success? ==> engine.effectStack == old(engine.effectStack)
      decreases fuel
      ensures !old(computeds[a].dirty) ==> r == Success(old(computeds[a].value)) && world.runLog == old(world.runLog)
      ensures r.Success? ==> !computeds[a].dirty && r.value == computeds[a].value
      ensures r.Success? && engine.IsTracking() ==> engine.Subscribed(engine.activeEffect.value, a, ValueKey)
      ensures fuel > 0 && old(computeds[a].dirty) ==> old(world.runLog) + [computeds[a].effect] <= world.runLog
    {
      var c := computeds[a];
      if c.dirty {
        if fuel == 0 {
          return Failure(OutOfFuel);
        }
        var v :- RunEffect(c.effect, fuel - 1);
        CacheAndTrack(a, v);
      } else {
        TrackComputed(a);
      }
      return Success(computeds[a].value);
    }

    /** The scheduler of a computed: on the clean-to-dirty step, `trigger(obj, 'value')`. */
    method ScheduleComputed(a: Addr, fuel: nat) returns (r: Result<(), Fault>)
      requires a in computeds
      requires Valid()
      modifies Repr, world
      ensures Valid() && Grows()
      ensures r.Success? ==> engine.effectStack == old(engine.effectStack)
      decreases fuel
      ensures computeds[a].dirty || !old(computeds[a].dirty)
    {
      if fuel == 0 {
        return Failure(OutOfFuel);
      }
      var fire := MarkDirty(a);
      if fire {
        r := Trigger(TriggerRequest(a, ValueKey, None, Undefined), fuel - 1);
      } else {
        r := Success(());
      }
    }

    /** The scheduler of a watcher: rerun the getter, call `cb(newValue, oldValue)`, keep the new value. */
    method ScheduleWatcher(w: nat, fuel: nat) returns (r: Result<(), Fault>)
      requires w in watchers
      requires Valid()
      modifies Repr, world
      ensures Valid() && Grows()
      ensures r.Success? ==> engine.effectStack == old(engine.effectStack)
      decreases fuel
      ensures r.Success? ==> |world.callbacks| > 0 && world.callbacks[|world.callbacks| - 1].cb == watchers[w].cb
                             && world.callbacks[|world.callbacks| - 1].newValue == watchers[w].oldValue
    {
      if fuel == 0 {
        return Failure(OutOfFuel);
      }
      var v :- RunEffect(watchers[w].effect, fuel - 1);
      Fire(w, v);
      return Success(());
    }

    /**
     * Looks up an array method on `v`: through a wrapper of an array the instrumented version
     * (true), on an array itself the original (false); anything else is not a function.
     */
    method LookUpMethod(v: Value, m: ArrayMethod, fuel: nat) returns (r: Result<bool, Fault>)
      requires Valid()
      modifies Repr, world
      ensures Valid() && Grows()
      ensures r.Success? ==> engine.effectStack == old(engine.effectStack)
      ensures fuel > 0 && Nullish(v) ==> r == Failure(Thrown(TypeError))
      ensures var c := old(store.cells);
                fuel > 0 && v.Obj? && v.addr in c && c[v.addr].Plain? ==>
                  r == (if c[v.addr].kind == ArrayObject then Success(false) else Failure(Thrown(TypeError)))
      ensures var c := old(store.cells);
                fuel > 0 && v.Obj? && v.addr in c && c[v.addr].Proxy? && c[v.addr].target in c
                && c[c[v.addr].target].Plain? && c[c[v.addr].target].kind == ArrayObject ==>
                  r == Success(true)
      decreases fuel
    {
      if fuel == 0 {
        return Failure(OutOfFuel);
      }
      if v == Undefined || v == Null {
        return Failure(Thrown(TypeError));
      }
      if !v.Obj? || v.addr !in store.cells {
        return Failure(Unsupported);
      }
      match store.cells[v.addr] {
        case Plain(kind, _) =>
          if kind == ArrayObject {
            return Success(false);
          }
          return Failure(Thrown(TypeError));
        case Proxy(t, h) =>
          if !(t in store.cells && store.cells[t].Plain?) {
            return Failure(Unsupported);
          }
          assert ReservedGet(t, h, Name(MethodName(m))).None?;
          var g := HandlerGet(t, h, Name(MethodName(m)));
          if g.ArrayMethodRef? {
            return Success(true);
          }
          return Failure(Thrown(TypeError));
        case _ =>
          return Failure(Unsupported);
      }
    }

    /**
     * An instrumented array method called on `self`: a search retries on the raw array when the
     * first search finds nothing; a mutator runs the original with tracking paused, and tracking
     * is enabled again only when the original returns. `receivers` are the arrays the original was
     * called on, in order, and `first` what the first call returned.
     */
    method CallInstrumented(self: Value, m: ArrayMethod, args: seq<Value>, fuel: nat)
      returns (r: Result<Value, Fault>, ghost receivers: seq<Value>, ghost first: Value)
      requires Valid()
      modifies Repr, world
      ensures Valid() && Grows()
      ensures r.Success? ==> engine.effectStack == old(engine.effectStack)
      decreases fuel
      ensures r.Success? && IsSearch(m) ==>
                1 <= |receivers| <= 2 && receivers[0] == self
                && (|receivers| == 2 <==> first == Bool(false) || first == Num(Int(-1)))
                && (|receivers| == 1 ==> r.value == first)
      ensures fuel > 2 && r.Success? && IsSearch(m) && |receivers| == 2 && old(ProxyAt(self)) ==>
                receivers[1] == Obj(old(store.cells[self.addr].target))
      ensures r.Success? && !IsSearch(m) ==> receivers == [self] && r.value == first && engine.shouldTrack
    {
      receivers, first := [], Undefined;
      if fuel == 0 {
        return Failure(OutOfFuel), receivers, first;
      }
      if IsSearch(m) {
        var res :- CallOriginal(self, m, args, fuel - 1);
        receivers, first := [self], res;
        if res == Bool(false) || res == Num(Int(-1)) {
          var raw :- GetOp(self, RawFlag, fuel - 1);
          receivers := receivers + [raw];
          res :- CallOriginal(raw, m, args, fuel - 1);
        }
        return Success(res), receivers, first;
      }
      SetTracking(false);
      var res :- CallOriginal(self, m, args, fuel - 1);
      receivers, first := [self], res;
      SetTracking(true);
      return Success(res), receivers, first;
    }

    /** `Array.prototype[m]` called on `self`; `shift`, `unshift`, `splice` and a `fromIndex` are not modelled. */
    method CallOriginal(self: Value, m: ArrayMethod, args: seq<Value>, fuel: nat) returns (r: Result<Value, Fault>)
      requires Valid()
      modifies Repr, world
      ensures Valid() && Grows()
      ensures r.Success? ==> engine.effectStack == old(engine.effectStack)
      decreases fuel
    {
      if fuel == 0 {
        return Failure(OutOfFuel);
      }
      match m {
        case Includes =>
          if |args| > 1 {
            return Failure(Unsupported);
          }
          r := Includes(self, if |args| == 1 then args[0] else Undefined, fuel - 1);
        case IndexOf =>
          if |args| > 1 {
            return Failure(Unsupported);
          }
          r := IndexOf(self, if |args| == 1 then args[0] else Undefined, fuel - 1);
        case LastIndexOf =>
          if |args| > 1 {
            return Failure(Unsupported);
          }
          r := LastIndexOf(self, if |args| == 1 then args[0] else Undefined, fuel - 1);
        case Push =>
          r := Push(self, args, fuel - 1);
        case Pop =>
          r := Pop(self, fuel - 1);
        case _ =>
          return Failure(Unsupported);
      }
    }

    /** `length` of `self`, read and converted by `ToLength`. */
    method LengthOf(self: Value, fuel: nat) returns (r: Result<nat, Fault>)
      requires Valid()
      modifies Repr, world
      ensures Valid() && Grows()
      ensures r.Success? ==> engine.effectStack == old(engine.effectStack)
      decreases fuel
    {
      if fuel == 0 {
        return Failure(OutOfFuel);
      }
      var lv :- GetOp(self, LengthKey, fuel - 1);
      return Success(ToLength(lv));
    }

    /** `Array.prototype.includes`: reads every index below `length`, compared by SameValueZero. */
    method Includes(self: Value, x: Value, fuel: nat) returns (r: Result<Value, Fault>)
      requires Valid()
      modifies Repr, world
      ensures Valid() && Grows()
      ensures r.Success? ==> engine.effectStack == old(engine.effectStack)
      decreases fuel
    {
      if fuel == 0 {
        return Failure(OutOfFuel);
      }
      var len :- LengthOf(self, fuel - 1);
      var k: nat := 0;
      while k < len
        invariant Valid() && Grows()
        invariant engine.effectStack == old(engine.effectStack)
        decreases len - k
      {
        var el :- GetOp(self, Idx(k), fuel - 1);
        if el == x {
          return Success(Bool(true));
        }
        k := k + 1;
      }
      return Success(Bool(false));
    }

    /** `Array.prototype.indexOf`: the first present index whose element is `=== x`, or -1. */
    method IndexOf(self: Value, x: Value, fuel: nat) returns (r: Result<Value, Fault>)
      requires Valid()
      modifies Repr, world
      ensures Valid() && Grows()
      ensures r.Success? ==> engine.effectStack == old(engine.effectStack)
      decreases fuel
    {
      if fuel == 0 {
        return Failure(OutOfFuel);
      }
      var len :- LengthOf(self, fuel - 1);
      var k: nat := 0;
      while k < len
        invariant Valid() && Grows()
        invariant engine.effectStack == old(engine.effectStack)
        decreases len - k
      {
        var present :- HasOp(self, Idx(k), fuel - 1);
        if present {
          var el :- GetOp(self, Idx(k), fuel - 1);
          if StrictEquals(el, x) {
            return Success(Num(Int(k)));
          }
        }
        k := k + 1;
      }
      return Success(Num(Int(-1)));
    }

    /** `Array.prototype.lastIndexOf`: the last present index whose element is `=== x`, or -1. */
    method LastIndexOf(self: Value, x: Value, fuel: nat) returns (r: Result<Value, Fault>)
      requires Valid()
      modifies Repr, world
      ensures Valid() && Grows()
      ensures r.Success? ==> engine.effectStack == old(engine.effectStack)
      decreases fuel
    {
      if fuel == 0 {
        return Failure(OutOfFuel);
      }
      var len :- LengthOf(self, fuel - 1);
      var k: nat := len;
      while k > 0
        invariant Valid() && Grows()
        invariant engine.effectStack == old(engine.effectStack)
      {
        k := k - 1;
        var present :- HasOp(self, Idx(k), fuel - 1);
        if present {
          var el :- GetOp(self, Idx(k), fuel - 1);
          if StrictEquals(el, x) {
            return Success(Num(Int(k)));
          }
        }
      }
      return Success(Num(Int(-1)));
    }

    /** `Array.prototype.push`: writes each item at the next index, then `length`; returns the new length. */
    method Push(self: Value, items: seq<Value>, fuel: nat) returns (r: Result<Value, Fault>)
      requires Valid()
      modifies Repr, world
      ensures Valid() && Grows()
      ensures r.Success? ==> engine.effectStack == old(engine.effectStack)
      decreases fuel
    {
      if fuel == 0 {
        return Failure(OutOfFuel);
      }
      var len :- LengthOf(self, fuel - 1);
      if len + |items| > MaxSafeLength {
        return Failure(Thrown(TypeError));
      }
      var i := 0;
      while i < |items|
        invariant Valid() && Grows()
        invariant engine.effectStack == old(engine.effectStack)
      {
        var u :- SetOp(self, Idx(len + i), items[i], self, fuel - 1);
        i := i + 1;
      }
      var u :- SetOp(self, LengthKey, Num(Int(len + |items|)), self, fuel - 1);
      return Success(Num(Int(len + |items|)));
    }

    /**
     * `Array.prototype.pop`: on an empty array writes `length` 0 and returns `undefined`; otherwise
     * reads the last element, deletes it, and writes the shorter `length`.
     */
    method Pop(self: Value, fuel: nat) returns (r: Result<Value, Fault>)
      requires Valid()
      modifies Repr, world
      ensures Valid() && Grows()
      ensures r.Success? ==> engine.effectStack == old(engine.effectStack)
      decreases fuel
    {
      if fuel == 0 {
        return Failure(OutOfFuel);
      }
      var len :- LengthOf(self, fuel - 1);
      if len == 0 {
        var u :- SetOp(self, LengthKey, Num(Int(0)), self, fuel - 1);
        return Success(Undefined);
      }
      var el :- GetOp(self, Idx(len - 1), fuel - 1);
      var d :- DeleteOp(self, Idx(len - 1), fuel - 1);
      var u :- SetOp(self, LengthKey, Num(Int(len - 1)), self, fuel - 1);
      return Success(el);
    }

    /** Registers an effect function running `body` with these options; it does not run yet. */
    method NewEffectWith(body: Body, opts: EffectOptions) returns (e: EffectId)
      requires Valid()
      requires opts.scheduler.ComputedScheduler? ==> opts.scheduler.computed in computeds
      requires opts.scheduler.WatchScheduler? ==> opts.scheduler.watcher in watchers
      modifies this, engine
      ensures Valid() && Grows()
      ensures engine.effectStack == old(engine.effectStack) && world.runLog == old(world.runLog)
      ensures e in engine.options && engine.options[e] == opts && e !in old(engine.options)
      ensures bodies == old(bodies)[e := body]
    {
      e := engine.nextEffect;
      AddBody(e, body);
      var e1 := RegisterEffect(opts);
    }

    /** Records the function of the effect about to be registered as `e`. */
    method AddBody(e: EffectId, body: Body)
      requires Valid() && e !in engine.options
      modifies this
      ensures Valid() && Grows()
      ensures bodies == old(bodies)[e := body]
    {
      bodies := bodies[e := body];
      Stepped();
    }

    /** Registers the next effect, whose function is already recorded, with these options. */
    method RegisterEffect(opts: EffectOptions) returns (e: EffectId)
      requires Valid() && engine.nextEffect in bodies
      requires opts.scheduler.ComputedScheduler? ==> opts.scheduler.computed in computeds
      requires opts.scheduler.WatchScheduler? ==> opts.scheduler.watcher in watchers
      modifies engine
      ensures Valid() && Grows()
      ensures engine.effectStack == old(engine.effectStack)
      ensures e == old(engine.nextEffect) && e !in old(engine.options) && engine.options == old(engine.options)[e := opts]
    {
      e := engine.NewEffect(opts);
      Registered(e);
    }

    /** Registering one new effect with a body, whose scheduler names a known computed or watcher, keeps `Valid`. */
    twostate lemma Registered(e: EffectId)
      requires old(Valid()) == true
      requires Repr == old(Repr) && refs == old(refs) && computeds == old(computeds) && watchers == old(watchers)
      requires e in engine.options && e !in old(engine.options) && engine.options == old(engine.options)[e := engine.options[e]]
      requires engine.options[e].scheduler.ComputedScheduler? ==> engine.options[e].scheduler.computed in computeds
      requires engine.options[e].scheduler.WatchScheduler? ==> engine.options[e].scheduler.watcher in watchers
      requires e in bodies && old(bodies).Keys <= bodies.Keys && old(world.runLog) == world.runLog
      requires old(world.scheduled) == world.scheduled && store.cells == old(store.cells)
      requires engine.Valid() && engine.sets == old(engine.sets)
      requires store.Valid() && cache.Valid(store)
      requires forall a :: a in refs ==> refs[a].Valid(engine)
      ensures Valid() && Grows()
    {
    }

    // Creating reactive state. User code creates it before any effect runs; effect functions only
    // read and write it (see `ExecNestedEffect` for the one exception, a nested `effect`).

    /**
     * `createReactiveObject(target, handlers)`, which `reactive`, `shallowReactive`, `readonly` and
     * `shallowReadonly` call with their four handler objects: the wrapper already made for the
     * object, whatever its handlers, or a new one; a primitive cannot be wrapped (`new Proxy` throws).
     */
    method Wrap(v: Value, h: Handlers) returns (r: Result<Value, Fault>)
      requires Valid()
      modifies store, cache
      ensures Valid() && Grows()
      ensures engine.effectStack == old(engine.effectStack) && world.runLog == old(world.runLog)
      ensures !v.Obj? ==> r == Failure(Thrown(TypeError))
      ensures v.Obj? && v.addr in old(cache.reactiveMap) ==> r == Success(Obj(old(cache.reactiveMap[v.addr])))
      ensures v.Obj? && v.addr !in old(cache.reactiveMap) ==>
                r == Success(Obj(old(store.next))) && old(store.next) !in old(store.cells)
                && store.cells == old(store.cells)[old(store.next) := Proxy(v.addr, h)]
    {
      if !v.Obj? {
        return Failure(Thrown(TypeError));
      }
      var p := cache.CreateReactiveObject(store, v.addr, h);
      Stepped();
      return Success(Obj(p));
    }

    /**
     * `ref(v)`: a new `RefImpl` behind a new ref object; the raw value is `toRaw(v)`, and a primitive
     * is also the visible value.
     */
    method NewRef(v: Value) returns (r: Value)
      requires Valid()
      modifies this, engine, store, cache
      ensures Valid()
      ensures r.Obj? && r.addr in refs && fresh(refs[r.addr]) && Repr == old(Repr) + {refs[r.addr]}
      ensures r.addr in store.cells && store.cells[r.addr] == RefObject
      ensures refs == old(refs)[r.addr := refs[r.addr]] && computeds == old(computeds) && watchers == old(watchers)
      ensures refs[r.addr].rawValue == ToRaw(old(store.cells), v) && (!v.Obj? ==> refs[r.addr].value == v)
      ensures engine.options == old(engine.options) && engine.effectStack == old(engine.effectStack)
      ensures engine.activeEffect == old(engine.activeEffect)
    {
      var ref := new RefImpl(engine, store, cache, v);
      var a := store.Alloc(RefObject);
      refs := refs[a := ref];
      Repr := Repr + {ref};
      RefAdded(a);
      return Obj(a);
    }

    /** Adding one valid ref, with nothing else changed but new subscriber sets and objects, keeps `Valid`. */
    twostate lemma RefAdded(a: Addr)
      requires old(Valid()) == true
      requires a in refs && refs == old(refs)[a := refs[a]] && Repr == old(Repr) + {refs[a]}
      requires computeds == old(computeds) && watchers == old(watchers) && bodies == old(bodies)
      requires engine.Valid() && engine.options == old(engine.options) && old(engine.sets).Keys <= engine.sets.Keys
      requires store.Valid() && cache.Valid(store) && refs[a].Valid(engine)
      requires forall b :: b in old(refs) ==> unchanged(old(refs)[b])
      ensures Valid()
    {
    }

    /**
     * `toRef(obj, key)`: `obj` itself when it is a ref, `propertyToRef` for another object, and a
     * new ref of a primitive. Asking `isRef` of `undefined` or `null` throws.
     */
    method ToRef(obj: Value, key: Key, fuel: nat) returns (r: Result<Value, Fault>)
      requires Valid()
      modifies Repr, world
      ensures Valid() && old(Repr) <= Repr && fresh(Repr - old(Repr))
      ensures (obj == Undefined || obj == Null) ==> r.Failure?
      ensures r.Success? ==> r.value.Obj?
      ensures !obj.Obj? && r.Success? ==>
                r.value.addr in refs && fresh(refs[r.value.addr]) && refs[r.value.addr].rawValue == obj
      ensures fuel > 1 && old(RefAt(obj)) ==> r == Success(obj)
      ensures fuel > 1 && !obj.Obj? && !Nullish(obj) ==> r.Success?
      ensures fuel > 1 && old(NonRefPlain(obj)) ==>
                var val := RawGet(old(store.cells[obj.addr].props), key);
                && (Nullish(val) ==> r == Failure(Thrown(TypeError)))
                && (old(RefAt(val)) ==> r == Success(val))
                && ((!val.Obj? && !Nullish(val)) || old(NonRefPlain(val)) ==>
                      r.Success? && r.value.addr in refs && fresh(refs[r.value.addr]) && refs[r.value.addr].rawValue == val)
    {
      var objIsRef :- IsRefOp(obj, fuel);
      if objIsRef {
        return Success(obj);
      }
      if !obj.Obj? {
        var x := NewRef(obj);
        return Success(x);
      }
      r := PropertyToRef(obj, key, fuel);
    }

    /**
     * `propertyToRef(obj, key)`: the property when it is a ref, or a new ref holding a copy of it,
     * not linked to the property.
     */
    method PropertyToRef(obj: Value, key: Key, fuel: nat) returns (r: Result<Value, Fault>)
      requires Valid()
      modifies Repr, world
      ensures Valid() && old(Repr) <= Repr && fresh(Repr - old(Repr))
      ensures r.Success? ==> r.value.Obj?
      ensures fuel > 1 && old(PlainAt(obj)) ==>
                var val := RawGet(old(store.cells[obj.addr].props), key);
                && (Nullish(val) ==> r == Failure(Thrown(TypeError)))
                && (old(RefAt(val)) ==> r == Success(val))
                && ((!val.Obj? && !Nullish(val)) || old(NonRefPlain(val)) ==>
                      r.Success? && r.value.addr in refs && fresh(refs[r.value.addr]) && refs[r.value.addr].rawValue == val)
    {
      var val :- GetOp(obj, key, fuel);
      var valIsRef :- IsRefOp(val, fuel);
      if valIsRef {
        return Success(val);
      }
      var x := NewRef(val);
      return Success(x);
    }

    /**
     * `toRefs(obj)`: a new ordinary object with, for every key `for ... in` visits, the `toRef` of
     * that property.
     */
    method ToRefs(obj: Value, fuel: nat) returns (r: Result<Value, Fault>)
      requires Valid()
      modifies Repr, world
      ensures Valid() && old(Repr) <= Repr && fresh(Repr - old(Repr))
      ensures r.Success? ==>
                r.value.Obj? && r.value.addr in store.cells && store.cells[r.value.addr].Plain?
                && store.cells[r.value.addr].kind == PlainObject
                && (forall k :: k in store.cells[r.value.addr].props ==> !k.SymKey? && store.cells[r.value.addr].props[k].Obj?)
      ensures fuel > 2 && obj.Obj? && ForInView(old(store.cells), obj.addr).Some? && r.Success? ==>
                var view := ForInView(old(store.cells), obj.addr).value;
                store.cells[r.value.addr].props.Keys == EnumerableKeys(view.0, OwnKeys(view.1))
    {
      var keys :- ForInKeys(obj, fuel);
      ghost var visited := keys;
      var props: Props := map[];
      while keys != {}
        invariant Valid() && old(Repr) <= Repr && fresh(Repr - old(Repr))
        invariant forall k :: k in props ==> !k.SymKey? && props[k].Obj?
        invariant forall k :: k in keys ==> !k.SymKey?
        invariant props.Keys + keys == visited && props.Keys !! keys
        decreases keys
      {
        var k :| k in keys;
        keys := keys - {k};
        var x :- ToRef(obj, k, fuel);
        props := props[k := x];
      }
      var a := AllocPlain(props);
      return Success(Obj(a));
    }

    /** A new ordinary object with these properties. */
    method AllocPlain(props: Props) returns (a: Addr)
      requires Valid()
      modifies store
      ensures Valid() && Grows()
      ensures engine.effectStack == old(engine.effectStack) && world.runLog == old(world.runLog)
      ensures a !in old(store.cells) && store.cells == old(store.cells)[a := Plain(PlainObject, props)]
    {
      a := store.Alloc(Plain(PlainObject, props));
      Stepped();
    }

    /**
     * `proxyRefs(target)`: a new wrapper, not cached, whose traps unwrap refs on reads and write
     * through them; a primitive cannot be wrapped.
     */
    method ProxyRefs(v: Value) returns (r: Result<Value, Fault>)
      requires Valid()
      modifies store
      ensures Valid() && Grows()
      ensures engine.effectStack == old(engine.effectStack) && world.runLog == old(world.runLog)
      ensures !v.Obj? ==> r == Failure(Thrown(TypeError))
      ensures v.Obj? ==> r == Success(Obj(old(store.next))) && old(store.next) !in old(store.cells)
                         && store.cells == old(store.cells)[old(store.next) := RefsProxy(v.addr)]
    {
      if !v.Obj? {
        return Failure(Thrown(TypeError));
      }
      var a := store.Alloc(RefsProxy(v.addr));
      Stepped();
      return Success(Obj(a));
    }

    /**
     * `computed(getter)`: a lazy effect running the getter, whose scheduler is the new computed's,
     * and the computed object, dirty with nothing cached. Nothing runs yet.
     */
    method NewComputed(getter: Body) returns (r: Value)
      requires Valid()
      modifies this, engine, store
      ensures Valid()
      ensures r.Obj? && r.addr in computeds && fresh(computeds[r.addr]) && Repr == old(Repr) + {computeds[r.addr]}
      ensures r.addr in store.cells && store.cells[r.addr] == ComputedObject
      ensures computeds == old(computeds)[r.addr := computeds[r.addr]] && refs == old(refs) && watchers == old(watchers)
      ensures var c := computeds[r.addr];
              c.dirty && c.effect !in old(engine.options) && engine.options == old(engine.options)[c.effect := EffectOptions(true, ComputedScheduler(r.addr))]
              && bodies[c.effect] == getter
      ensures engine.effectStack == old(engine.effectStack) && world.runLog == old(world.runLog)
    {
      var a := store.Alloc(ComputedObject);
      var e := engine.NewEffect(EffectOptions(true, ComputedScheduler(a)));
      var c := new ComputedRef(e, a);
      computeds := computeds[a := c];
      bodies := bodies[e := getter];
      Repr := Repr + {c};
      OneAdded(e, c);
      return Obj(a);
    }

    /**
     * Registering one effect with its function, together with the computed or watcher `o` its
     * scheduler names, keeps `Valid`.
     */
    twostate lemma OneAdded(e: EffectId, new o: object)
      requires old(Valid()) == true && o !in old(Repr) && Repr == old(Repr) + {o}
      requires e in engine.options && engine.options == old(engine.options)[e := engine.options[e]]
      requires e in bodies && bodies == old(bodies)[e := bodies[e]] && refs == old(refs)
      requires var sc := engine.options[e].scheduler;
        if sc.ComputedScheduler? then
          sc.computed in computeds && computeds == old(computeds)[sc.computed := computeds[sc.computed]]
          && computeds[sc.computed] == o && computeds[sc.computed].effect == e && computeds[sc.computed].obj == sc.computed
          && watchers == old(watchers)
        else
          sc.WatchScheduler? && sc.watcher in watchers && watchers == old(watchers)[sc.watcher := watchers[sc.watcher]]
          && watchers[sc.watcher] == o && watchers[sc.watcher].effect == e && computeds == old(computeds)
      requires engine.Valid() && engine.sets == old(engine.sets)
      requires store.Valid() && cache.Valid(store) && cache.reactiveMap == old(cache.reactiveMap)
      requires forall a :: a in refs ==> refs[a].Valid(engine)
      ensures Valid()
    {
    }

    /**
     * `watch(source, cb)`: a lazy effect running the getter (a function source) or `traverse(source)`,
     * whose scheduler is the new watcher's, run once at once to seed the old value; the callback is
     * not called.
     */
    method NewWatch(getter: Body, cb: nat, fuel: nat) returns (e: EffectId, r: Result<(), Fault>)
      requires Valid()
      modifies Repr, world
      ensures Valid() && old(Repr) <= Repr && fresh(Repr - old(Repr))
      ensures e !in old(engine.options) && e in engine.options && e in watchers && fresh(watchers[e])
      ensures watchers[e].cb == cb && watchers[e].effect == e
      ensures old(world.runLog) + [e] <= world.runLog
      ensures r.Success? ==> engine.effectStack == old(engine.effectStack)
    {
      e := RegisterWatcher(getter, cb);
      var v := RunEffect(e, fuel);
      if v.Failure? {
        return e, Failure(v.error);
      }
      SeedWatcher(e, v.value);
      return e, Success(());
    }

    /** The watcher of a new `watch` call and its lazy effect, whose scheduler is the watcher's. */
    method RegisterWatcher(getter: Body, cb: nat) returns (e: EffectId)
      requires Valid()
      modifies this, engine
      ensures Valid() && old(Repr) <= Repr && fresh(Repr - old(Repr))
      ensures e !in old(engine.options) && engine.options == old(engine.options)[e := EffectOptions(true, WatchScheduler(e))]
      ensures e in watchers && watchers == old(watchers)[e := watchers[e]] && fresh(watchers[e])
      ensures Repr == old(Repr) + {watchers[e]}
      ensures watchers[e].cb == cb && watchers[e].effect == e && watchers[e].oldValue == Undefined
      ensures bodies == old(bodies)[e := getter] && refs == old(refs) && computeds == old(computeds)
      ensures engine.effectStack == old(engine.effectStack) && world.runLog == old(world.runLog)
    {
      e := engine.NewEffect(EffectOptions(true, WatchScheduler(engine.nextEffect)));
      var w := new Watcher(e, cb);
      watchers := watchers[e := w];
      bodies := bodies[e := getter];
      Repr := Repr + {w};
      OneAdded(e, w);
    }

    /** `oldValue = effectFn()` at the end of `watch`. */
    method SeedWatcher(w: nat, v: Value)
      requires Valid() && w in watchers
      modifies watchers[w]
      ensures Valid() && Grows()
      ensures engine.effectStack == old(engine.effectStack) && world.runLog == old(world.runLog)
      ensures world.callbacks == old(world.callbacks)
      ensures watchers[w].oldValue == v
    {
      watchers[w].Seed(v);
      Stepped();
    }

    /**
     * `effect(fn, options)`: registers the effect function and, unless `lazy`, runs it once; with
     * `scheduled`, a trigger hands it to the user's scheduler instead of running it.
     */
    method Effect(fn: Body, lazy: bool, scheduled: bool, fuel: nat) returns (e: EffectId, r: Result<(), Fault>)
      requires Valid()
      modifies Repr, world
      ensures Valid() && Grows()
      ensures e !in old(engine.options) && e in engine.options
      ensures lazy ==> r == Success(()) && world.runLog == old(world.runLog)
                       && engine.options[e] == EffectOptions(lazy, if scheduled then UserScheduler else NoScheduler)
      ensures !lazy ==> old(world.runLog) + [e] <= world.runLog
    {
      e := NewEffectWith(fn, EffectOptions(lazy, if scheduled then UserScheduler else NoScheduler));
      if lazy {
        return e, Success(());
      }
      var v := RunEffect(e, fuel);
      r := if v.Success? then Success(()) else Failure(v.error);
    }
  }

  /** The largest length an array-like may reach, 2^53 - 1. */
  const MaxSafeLength: nat := 0x1F_FFFF_FFFF_FFFF

  /** `ToPropertyKey` of a computed member name; an object would call `toString`, which is not modelled. */
  function PropertyKey(v: Value): (r: Result<Key, Fault>)
    ensures r.Success? <==> ToPropertyKey(v).Some?
  {
    match ToPropertyKey(v)
    case Some(k) => Success(k)
    case None => Failure(Unsupported)
  }

  /** A property of a primitive other than `undefined` and `null`: a string's own ones, nothing else. */
  function PrimitiveProperty(v: Value, key: Key): Value {
    if v.Str? then StringProperty(v.s, key) else Undefined
  }

  /** The own properties of a string: `length` and one character per index. */
  function StringProperty(s: string, key: Key): Value {
    if key == LengthKey then Num(Int(|s|))
    else if key.Idx? && key.i < |s| then Str([s[key.i]])
    else Undefined
  }

  /** The decimal form of a number, as `+` on a string writes it. */
  function NumberString(n: Number): string {
    match n
    case NaN => "NaN"
    case Int(i) => if i < 0 then "-" + DecimalString(-i) else DecimalString(i)
  }

  /** `ToString` of a primitive. */
  function PrimitiveString(v: Value): string
    requires !v.Obj? && !v.Symbol?
  {
    match v
    case Undefined => "undefined"
    case Null => "null"
    case Bool(b) => if b then "true" else "false"
    case Num(n) => NumberString(n)
    case Str(s) => s
  }

  /** `x + y` on primitives: concatenation when either is a string, numeric addition otherwise. */
  function Add(x: Value, y: Value): Result<Value, Fault> {
    if x.Obj? || y.Obj? then Failure(Unsupported)
    else if x.Symbol? || y.Symbol? then Failure(Thrown(TypeError))
    else if x.Str? || y.Str? then Success(Str(PrimitiveString(x) + PrimitiveString(y)))
    else
      match (ToNumber(x), ToNumber(y))
      case (Int(i), Int(j)) => Success(Num(Int(i + j)))
      case _ => Success(Num(NaN))
  }

  /**
   * The kind and properties `for ... in` sees on the object at `a`: an ordinary object itself, the
   * ordinary target of a wrapper, or either of those behind a `proxyRefs` wrapper, which has no
   * `ownKeys` trap of its own.
   */
  function ForInView(cells: map<Addr, Cell>, a: Addr): Option<(ObjKind, Props)> {
    if a in cells && cells[a].RefsProxy? then WrappedView(cells, cells[a].target) else WrappedView(cells, a)
  }

  /** An ordinary object, or the ordinary target of a wrapper made by `createReactiveObject`. */
  function WrappedView(cells: map<Addr, Cell>, a: Addr): Option<(ObjKind, Props)> {
    if a !in cells then None
    else match cells[a]
      case Plain(kind, props) => Some((kind, props))
      case Proxy(t, _) => if t in cells && cells[t].Plain? then Some((cells[t].kind, cells[t].props)) else None
      case _ => None
  }

  /**
   * `v` is a wrapper that tracks reads, around an ordinary object that holds no object and no own
   * `__v_raw`, and `keys` are property names of that object: traversing `v` over them reads each
   * through the trap and goes no deeper.
   */
  ghost predicate FlatKeys(cells: map<Addr, Cell>, v: Value, keys: set<Key>) {
    FlatWrapper(cells, v) && forall k :: k in keys ==> !k.SymKey? && k in cells[cells[v.addr].target].props
  }

  lemma KeepsTransitive(b0: map<Addr, map<Key, SetId>>, s0: map<SetId, set<EffectId>>,
                  b1: map<Addr, map<Key, SetId>>, s1: map<SetId, set<EffectId>>,
                  b2: map<Addr, map<Key, SetId>>, s2: map<SetId, set<EffectId>>)
    requires KeepsSubscribers(b0, s0, b1, s1) && KeepsSubscribers(b1, s1, b2, s2)
    ensures KeepsSubscribers(b0, s0, b2, s2)
  {
  }

  /** What `for ... in` sees on a flat wrapper is its target. */
  lemma FlatView(cells: map<Addr, Cell>, v: Value)
    requires FlatWrapper(cells, v)
    ensures ForInView(cells, v.addr) == Some((cells[cells[v.addr].target].kind, cells[cells[v.addr].target].props))
  {
  }

  /** The keys `for ... in` visits on a flat wrapper are names of its target. */
  lemma FlatEnumerable(cells: map<Addr, Cell>, v: Value, keys: set<Key>)
    requires FlatWrapper(cells, v)
    requires keys == EnumerableKeys(cells[cells[v.addr].target].kind, OwnKeys(cells[cells[v.addr].target].props))
    ensures FlatKeys(cells, v, keys)
  {
  }

  lemma KeptSubscribed(b0: map<Addr, map<Key, SetId>>, s0: map<SetId, set<EffectId>>,
                       b1: map<Addr, map<Key, SetId>>, s1: map<SetId, set<EffectId>>, e: EffectId, t: Addr, k: Key)
    requires KeepsSubscribers(b0, s0, b1, s1) && SubscribedIn(b0, s0, e, t, k)
    ensures SubscribedIn(b1, s1, e, t, k)
  {
  }

  lemma FlatKeysOne(cells: map<Addr, Cell>, v: Value, keys: set<Key>, k: Key)
    requires FlatKeys(cells, v, keys) && k in keys
    ensures FlatKeys(cells, v, {k})
  {
  }

  /** `v` is a wrapper that tracks reads, around an ordinary object that holds no object and no own `__v_raw`. */
  ghost predicate FlatWrapper(cells: map<Addr, Cell>, v: Value) {
    v.Obj? && v.addr in cells && cells[v.addr].Proxy? && !IsReadonlyHandlers(cells[v.addr].handlers)
    && var t := cells[v.addr].target;
    t in cells && cells[t].Plain? && RawFlag !in cells[t].props
    && forall k :: k in cells[t].props ==> !IsObject(cells[t].props[k])
  }

  /** Effect `e` is subscribed to every key of `keys` that the trap of handlers `h` on `t` does not answer itself. */
  ghost predicate WatchesIn(bucket: map<Addr, map<Key, SetId>>, sets: map<SetId, set<EffectId>>, e: EffectId,
                            t: Addr, h: Handlers, keys: set<Key>) {
    forall k :: k in keys && ReservedGet(t, h, k).None? ==> SubscribedIn(bucket, sets, e, t, k)
  }

  /** One key more read with the subscriptions kept: the keys read so far stay subscribed and `k` joins them. */
  lemma WatchOneMore(b1: map<Addr, map<Key, SetId>>, s1: map<SetId, set<EffectId>>,
                     b2: map<Addr, map<Key, SetId>>, s2: map<SetId, set<EffectId>>,
                     e: EffectId, t: Addr, h: Handlers, done: set<Key>, k: Key)
    requires KeepsSubscribers(b1, s1, b2, s2) && WatchesIn(b1, s1, e, t, h, done)
    requires ReservedGet(t, h, k).None? ==> SubscribedIn(b2, s2, e, t, k)
    ensures WatchesIn(b2, s2, e, t, h, done + {k})
  {
  }

  /**
   * Every effect of `effects` without a scheduler has run since the log was `log0`, and every one
   * with a user scheduler has been handed to it since the queue was `queue0`, by the schedulers
   * `opts` gives.
   */
  ghost predicate Dispatched(effects: set<EffectId>, opts: map<EffectId, EffectOptions>, log0: seq<EffectId>, log: seq<EffectId>,
                             queue0: seq<EffectId>, queue: seq<EffectId>)
  {
    && log0 <= log && queue0 <= queue
    && (forall e :: e in effects && e in opts && opts[e].scheduler == NoScheduler ==> e in log[|log0|..])
    && (forall e :: e in effects && e in opts && opts[e].scheduler == UserScheduler ==> e in queue[|queue0|..])
  }

  /** Dispatching one more effect, by what its scheduler asks, keeps `Dispatched` for the larger set. */
  lemma DispatchedOneMore(done: set<EffectId>, e: EffectId, opts: map<EffectId, EffectOptions>,
                          log0: seq<EffectId>, log1: seq<EffectId>, log2: seq<EffectId>,
                          queue0: seq<EffectId>, queue1: seq<EffectId>, queue2: seq<EffectId>)
    requires Dispatched(done, opts, log0, log1, queue0, queue1)
    requires log0 <= log1 <= log2 && queue0 <= queue1 <= queue2
    requires e in opts && opts[e].scheduler == NoScheduler ==> log1 + [e] <= log2
    requires e in opts && opts[e].scheduler == UserScheduler ==> queue1 + [e] <= queue2
    ensures Dispatched(done + {e}, opts, log0, log2, queue0, queue2)
  {
    forall x | x in done + {e} && x in opts && opts[x].scheduler == NoScheduler
      ensures x in log2[|log0|..]
    {
      if x == e {
        AppendedLater(log0, log1, log2, e);
      } else {
        LaterStaysLater(log1, log2, |log0|, x);
      }
    }
    forall x | x in done + {e} && x in opts && opts[x].scheduler == UserScheduler
      ensures x in queue2[|queue0|..]
    {
      if x == e {
        AppendedLater(queue0, queue1, queue2, e);
      } else {
        LaterStaysLater(queue1, queue2, |queue0|, x);
      }
    }
  }

  /** Taking `e` out of what is left adds it to what is done. */
  lemma OneMoreDone<T>(all: set<T>, rest: set<T>, e: T)
    requires e in rest && rest <= all
    ensures all - rest + {e} == all - (rest - {e})
  {
  }

  /** An element appended after `a` and before `c` lies in the part of `c` after `a`. */
  lemma AppendedLater<T>(a: seq<T>, b: seq<T>, c: seq<T>, x: T)
    requires a <= b && b + [x] <= c
    ensures x in c[|a|..]
  {
    assert c[|b|] == x;
  }

  /** What lies after the first `n` elements of `a` still does in any extension of `a`. */
  lemma LaterStaysLater<T>(a: seq<T>, b: seq<T>, n: nat, x: T)
    requires a <= b && n <= |a| && x in a[n..]
    ensures x in b[n..]
  {
    var i :| n <= i < |a| && a[i] == x;
    assert b[i] == x;
  }

  /** `undefined` or `null`, whose properties cannot be read. */
  predicate Nullish(v: Value) {
    v == Undefined || v == Null
  }

  /** What `Array.isArray` and `toRawType` report for an address; a wrapper reports what an ordinary object does. */
  function KindOf(cells: map<Addr, Cell>, a: Addr): ObjKind {
    if a in cells && cells[a].Plain? then cells[a].kind else PlainObject
  }
}
