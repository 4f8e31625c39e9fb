/**
 * `ref.ts`: the single-slot observable `RefImpl`, with the engine-side halves of its accessors.
 * Reading `value` subscribes the active effect to the ref's own `dep` set; writing a changed value
 * stores it and hands the whole `dep` set back to be run (running effects is user code, done by the
 * caller). `isRef`, `unRef`, `toRef`, `toRefs` and the `proxyRefs` traps are here as far as they do
 * not read properties; the reads themselves go through the runtime's property access.
 */
module Ref {
  import opened Wrappers
  import opened Values
  import opened Heap
  import opened Reactive
  import opened Effect

  /** The `__v_isRef` property every `RefImpl` carries. */
  const IsRefKey: Key := Name("__v_isRef")

  class RefImpl {
    /** `_rawValue`: the raw value, compared on writes. */
    var rawValue: Value
    /** `_value`: what `value` returns, the reactive wrapper of an object value. */
    var value: Value
    /** `dep`: the ref's own subscriber set. */
    const dep: SetId

    /** The subscriber set exists, and a primitive is stored as it is. */
    ghost predicate Valid(engine: Engine)
      reads this, engine
    {
      dep in engine.sets && (!IsObject(rawValue) ==> value == rawValue)
    }

    /**
     * `new RefImpl(v)`: the raw value is `toRaw(v)`, the visible value `toReactive(v)`, and `dep` a
     * new empty set.
     */
    constructor (engine: Engine, store: Store, cache: ProxyCache, v: Value)
      requires engine.Valid() && store.Valid() && cache.Valid(store)
      modifies engine, store, cache
      ensures engine.Valid() && store.Valid() && cache.Valid(store) && Valid(engine)
      ensures rawValue == ToRaw(old(store.cells), v)
      ensures !IsObject(v) ==> value == v && store.cells == old(store.cells) && store.next == old(store.next)
      ensures IsObject(v) ==> value.Obj? && v.addr in cache.reactiveMap && value.addr == cache.reactiveMap[v.addr]
      ensures dep == old(engine.nextSet) && dep !in old(engine.sets) && engine.sets == old(engine.sets)[dep := {}]
      ensures engine.bucket == old(engine.bucket) && engine.deps == old(engine.deps) && engine.options == old(engine.options)
      ensures engine.effectStack == old(engine.effectStack) && engine.activeEffect == old(engine.activeEffect)
      ensures engine.shouldTrack == old(engine.shouldTrack) && engine.nextEffect == old(engine.nextEffect)
      ensures old(store.cells).Keys <= store.cells.Keys && old(store.next) <= store.next
      ensures forall a :: a in old(store.cells) ==> store.cells[a] == old(store.cells[a])
    {
      var raw := ToRaw(store.cells, v);
      var s := engine.NewSet();
      var shown := cache.ToReactive(store, v);
      rawValue := raw;
      value := shown;
      dep := s;
    }

    /** `trackRefValue(this)`: subscribes the active effect to `dep` when tracking. */
    method TrackRefValue(engine: Engine)
      requires engine.Valid() && Valid(engine)
      modifies engine
      ensures engine.Valid() && Valid(engine)
      ensures engine.TrackedIn(dep) && engine.KeepsEffects()
    {
      if engine.IsTracking() {
        engine.TrackEffects(dep);
      }
    }

    /** The `value` getter: subscribes the active effect when tracking and returns `_value`. */
    method GetValue(engine: Engine) returns (v: Value)
      requires engine.Valid() && Valid(engine)
      modifies engine
      ensures engine.Valid() && Valid(engine)
      ensures v == value
      ensures engine.TrackedIn(dep) && engine.KeepsEffects()
      ensures old(engine.IsTracking()) ==> engine.activeEffect.value in engine.sets[dep]
    {
      TrackRefValue(engine);
      v := value;
    }

    /**
     * The `value` setter with the new value already unwrapped by `toRaw`: when it differs from the
     * stored raw value (NaN equal to NaN) both slots are updated and every effect in `dep` is
     * returned to be run, the active one included; otherwise nothing changes and nothing runs.
     */
    method SetValue(engine: Engine, store: Store, cache: ProxyCache, newRaw: Value) returns (toRun: set<EffectId>)
      requires engine.Valid() && Valid(engine) && store.Valid() && cache.Valid(store)
      modifies this, store, cache
      ensures Valid(engine) && store.Valid() && cache.Valid(store)
      ensures !HasChanged(old(rawValue), newRaw) ==>
        toRun == {} && rawValue == old(rawValue) && value == old(value)
        && store.cells == old(store.cells) && store.next == old(store.next) && cache.reactiveMap == old(cache.reactiveMap)
      ensures HasChanged(old(rawValue), newRaw) ==>
        toRun == RefRunSet(engine.sets, dep) && rawValue == newRaw
        && (!IsObject(newRaw) ==> value == newRaw && store.cells == old(store.cells) && store.next == old(store.next))
        && (IsObject(newRaw) ==> value.Obj? && newRaw.addr in cache.reactiveMap && value.addr == cache.reactiveMap[newRaw.addr])
      ensures old(store.cells).Keys <= store.cells.Keys && old(store.next) <= store.next
      ensures forall a :: a in old(store.cells) ==> store.cells[a] == old(store.cells[a])
      ensures HasChanged(old(rawValue), newRaw) && engine.activeEffect.Some? && engine.activeEffect.value in engine.sets[dep] ==>
                engine.activeEffect.value in toRun
    {
      if !HasChanged(rawValue, newRaw) {
        return {};
      }
      value := cache.ToReactive(store, newRaw);
      rawValue := newRaw;
      toRun := engine.sets[dep];
    }
  }

  /** The effects `triggerEffects(this.dep)` runs after a changed write: all of `dep`. */
  function RefRunSet(sets: map<SetId, set<EffectId>>, dep: SetId): set<EffectId>
    requires dep in sets
  {
    sets[dep]
  }

  /** The evidently intended run-set of a ref write: `dep` without the active effect, as `trigger` does. */
  function GuardedRefRunSet(sets: map<SetId, set<EffectId>>, dep: SetId, active: Option<EffectId>): (r: set<EffectId>)
    requires dep in sets
    ensures active.Some? ==> active.value !in r
  {
    Others(sets[dep], active)
  }

  /** The guarded run-set differs from the written one only by the active effect. */
  lemma GuardedRefRunSetAgrees(sets: map<SetId, set<EffectId>>, dep: SetId, active: Option<EffectId>)
    requires dep in sets
    ensures GuardedRefRunSet(sets, dep, active) <= RefRunSet(sets, dep)
    ensures forall e :: e in RefRunSet(sets, dep) && Some(e) != active ==> e in GuardedRefRunSet(sets, dep, active)
    ensures active.Some? && active.value in sets[dep] ==>
            GuardedRefRunSet(sets, dep, active) + {active.value} == RefRunSet(sets, dep)
  {
  }

  /**
   * An effect that reads a ref and then writes a changed value to it is in the set the write runs
   * but not in the guarded set: so `a.value++` inside an effect runs that effect again, from
   * inside itself, without end.
   */
  lemma SelfWriteRerunsReader(sets: map<SetId, set<EffectId>>, dep: SetId, e: EffectId)
    requires dep in sets && e in sets[dep]
    ensures e in RefRunSet(sets, dep) && e !in GuardedRefRunSet(sets, dep, Some(e))
  {
  }

  /**
   * `isRef(v)` = `!!v.__v_isRef`, given what reading `v.__v_isRef` gave (the read itself may track):
   * reading a property of `undefined` or `null` throws.
   */
  function IsRef(v: Value, flag: Value): (r: Result<bool, JsError>)
    ensures r.Failure? <==> v == Undefined || v == Null
  {
    if v == Undefined || v == Null then Failure(TypeError) else Success(Truthy(flag))
  }

  /** What reading `__v_isRef` gives on an object that is not a wrapper: true on a ref, the own property otherwise. */
  function OwnIsRefFlag(c: Cell): Value {
    match c
    case RefObject => Bool(true)
    case Plain(_, props) => RawGet(props, IsRefKey)
    case _ => Undefined
  }

  /**
   * `isRef` is true exactly for `RefImpl` instances among the objects that are not wrappers (an
   * ordinary object counts only if it carries its own truthy `__v_isRef`), and false for every
   * primitive except `undefined` and `null`, which throw.
   */
  lemma IsRefExactlyRefs(c: Cell, v: Value)
    ensures IsRef(Obj(0), OwnIsRefFlag(RefObject)) == Success(true)
    ensures IsRef(Obj(0), OwnIsRefFlag(ComputedObject)) == Success(false)
    ensures c.Plain? && IsRefKey !in c.props ==> IsRef(Obj(0), OwnIsRefFlag(c)) == Success(false)
    ensures !v.Obj? && v != Undefined && v != Null ==> IsRef(v, Undefined) == Success(false)
  {
  }

  /** The evidently intended `isRef`: `!!(v && v.__v_isRef)`, which never throws. */
  function IsRefGuarded(v: Value, flag: Value): (r: bool)
  {
    Truthy(v) && Truthy(flag)
  }

  /** The guarded test agrees with `isRef` on every object and says false for `undefined` and `null`. */
  lemma IsRefGuardedAgrees(v: Value, flag: Value)
    ensures v.Obj? ==> IsRef(v, flag) == Success(IsRefGuarded(v, flag))
    ensures v == Undefined || v == Null ==> !IsRefGuarded(v, flag)
    ensures IsRefGuarded(RawGet(map[], IsRefKey), Undefined) == false
  {
  }

  /**
   * The keys `for ... in` visits among the own keys of an object of this kind: the string keys,
   * whose data properties are enumerable, except the non-enumerable `length` of an array.
   */
  function EnumerableKeys(kind: ObjKind, keys: set<Key>): set<Key> {
    set k | k in keys && !k.SymKey? && !(kind == ArrayObject && k == LengthKey)
  }

  /**
   * `for ... in` over an object visits each of its own indices and names and nothing else; on an
   * array it skips `length`, while an ordinary object's own `length` is visited like any name. So
   * `toRefs` of a one-element array has the one key `0`.
   */
  lemma ForInVisits(kind: ObjKind, props: Props, x: Value)
    ensures forall k :: k in EnumerableKeys(kind, OwnKeys(props)) ==> k in props && !k.SymKey?
    ensures forall k :: k in props && (k.Idx? || (k.Name? && k != LengthKey)) ==> k in EnumerableKeys(kind, OwnKeys(props))
    ensures LengthKey in EnumerableKeys(kind, OwnKeys(props)) <==> kind != ArrayObject && LengthKey in props
    ensures EnumerableKeys(ArrayObject, OwnKeys(map[Idx(0) := x, LengthKey := Num(Int(1))])) == {Idx(0)}
  {
    var one := map[Idx(0) := x, LengthKey := Num(Int(1))];
    assert OwnKeys(one) == {Idx(0), LengthKey};
  }
}
