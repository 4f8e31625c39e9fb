/**
 * `effect.ts`: the dependency store and the bookkeeping of running effects.
 *
 * The module-level state of the source is the state of one `Engine`: the `bucket` (target to key to
 * subscriber set), the subscriber `Set` objects themselves, each effect function's `options` and
 * `deps` array, the `effectStack` with `activeEffect`, and the `shouldTrack` flag. Running an
 * effect's body, which is code of the caller, is done by the runtime between `BeginRun` and
 * `EndRun`, the two halves of the `effectFn` wrapper.
 */
module Effect {
  import opened Wrappers
  import opened Values
  import opened Reactive

  /** The identity of an effect function `effectFn`. */
  type EffectId = nat
  /** The identity of a subscriber `Set` object. */
  type SetId = nat

  /** `options.scheduler`: none, one of the caller's, or the one `computed` or `watch` installs. */
  datatype Scheduler = NoScheduler | UserScheduler | ComputedScheduler(computed: Addr) | WatchScheduler(watcher: nat)

  /** The `options` object of an effect. */
  datatype EffectOptions = EffectOptions(lazy: bool, scheduler: Scheduler)

  /** `effectStack[effectStack.length - 1]`, which is `undefined` on an empty stack. */
  function Top(stack: seq<EffectId>): (r: Option<EffectId>)
    ensures r.None? <==> stack == []
    ensures r.Some? ==> r.value == stack[|stack| - 1]
  {
    if stack == [] then None else Some(stack[|stack| - 1])
  }

  predicate NoDuplicates(s: seq<SetId>) {
    forall i, j :: 0 <= i < j < |s| ==> s[i] != s[j]
  }

  /** The effects in the set a dependency map holds for `key`, or none. */
  function Subscribers(depsMap: map<Key, SetId>, sets: map<SetId, set<EffectId>>, key: Key): set<EffectId> {
    if key in depsMap && depsMap[key] in sets then sets[depsMap[key]] else {}
  }

  /** The effects other than the active one. */
  function Others(s: set<EffectId>, active: Option<EffectId>): (r: set<EffectId>)
    ensures forall e :: e in r <==> e in s && active != Some(e)
  {
    if active.Some? then s - {active.value} else s
  }

  /** Subscribers of every key among `keys` that compares `>=` the number `n`. */
  function AtOrAbove(depsMap: map<Key, SetId>, sets: map<SetId, set<EffectId>>, keys: set<Key>, n: Number): set<EffectId> {
    set k, e | k in keys && k in depsMap && !k.SymKey? && KeyAtLeast(k, n) == Success(true)
               && depsMap[k] in sets && e in sets[depsMap[k]] :: e
  }

  /** The keys of a dependency map include a symbol. */
  predicate HasSymbolKey(depsMap: map<Key, SetId>) {
    exists k :: k in depsMap && k.SymKey?
  }

  /** `length` subscribers, joined on an ADD to an array. */
  function LengthGroup(dm: map<Key, SetId>, sets: map<SetId, set<EffectId>>, ty: Option<TriggerType>, kind: ObjKind)
    : set<EffectId>
  {
    if ty == Some(ADD) && kind == ArrayObject then Subscribers(dm, sets, LengthKey) else {}
  }

  /** Subscribers of the keys at or above the new length, joined when an array's `length` is written. */
  function TruncatedGroup(dm: map<Key, SetId>, sets: map<SetId, set<EffectId>>, key: Key, kind: ObjKind, newVal: Value)
    : set<EffectId>
  {
    if kind == ArrayObject && key == LengthKey then AtOrAbove(dm, sets, dm.Keys, ToNumber(newVal)) else {}
  }

  /** `ITERATE_KEY` subscribers, joined on ADD, on DELETE, and on SET of a Map. */
  function IterateGroup(dm: map<Key, SetId>, sets: map<SetId, set<EffectId>>, ty: Option<TriggerType>, kind: ObjKind)
    : set<EffectId>
  {
    if ty == Some(ADD) || ty == Some(DELETE) || (ty == Some(SET) && kind == MapObject)
    then Subscribers(dm, sets, IterateKey) else {}
  }

  /** Map-key iteration subscribers, joined on ADD or DELETE of a Map. */
  function MapKeysGroup(dm: map<Key, SetId>, sets: map<SetId, set<EffectId>>, ty: Option<TriggerType>, kind: ObjKind)
    : set<EffectId>
  {
    if (ty == Some(ADD) || ty == Some(DELETE)) && kind == MapObject
    then Subscribers(dm, sets, MapKeyIterateKey) else {}
  }

  /**
   * The effects `trigger(target, key, type, newVal)` runs: the union of its groups, minus the
   * active effect; `type` is `None` for the untyped trigger of a computed value. When the length of
   * an array is written, every key of the target's map is compared with the new length, and a
   * symbol key makes that comparison throw.
   */
  function RunSet(bucket: map<Addr, map<Key, SetId>>, sets: map<SetId, set<EffectId>>, active: Option<EffectId>,
                  target: Addr, key: Key, ty: Option<TriggerType>, kind: ObjKind, newVal: Value)
    : Result<set<EffectId>, JsError>
  {
    if target !in bucket then Success({})
    else
      var dm := bucket[target];
      if kind == ArrayObject && key == LengthKey && HasSymbolKey(dm) then Failure(TypeError)
      else
        Success(Others(
          Subscribers(dm, sets, key) + LengthGroup(dm, sets, ty, kind) + TruncatedGroup(dm, sets, key, kind, newVal)
          + IterateGroup(dm, sets, ty, kind) + MapKeysGroup(dm, sets, ty, kind),
          active))
  }

  /** The active effect is never in the run-set: a write inside an effect does not re-run that effect. */
  lemma RunSetExcludesActive(bucket: map<Addr, map<Key, SetId>>, sets: map<SetId, set<EffectId>>, e: EffectId,
                             target: Addr, key: Key, ty: Option<TriggerType>, kind: ObjKind, newVal: Value)
    ensures var r := RunSet(bucket, sets, Some(e), target, key, ty, kind, newVal);
            r.Success? ==> e !in r.value
  {
  }

  /** Every effect in the run-set is a subscriber of some set, so it is among the effects every subscriber is. */
  lemma RunSetRegistered(bucket: map<Addr, map<Key, SetId>>, sets: map<SetId, set<EffectId>>, active: Option<EffectId>,
                         target: Addr, key: Key, ty: Option<TriggerType>, kind: ObjKind, newVal: Value, known: set<EffectId>)
    requires forall s, e :: s in sets && e in sets[s] ==> e in known
    ensures var r := RunSet(bucket, sets, active, target, key, ty, kind, newVal);
            r.Success? ==> r.value <= known
  {
  }

  /** A target nobody has read runs nothing. */
  lemma RunSetWithoutRegistry(bucket: map<Addr, map<Key, SetId>>, sets: map<SetId, set<EffectId>>, active: Option<EffectId>,
                              target: Addr, key: Key, ty: Option<TriggerType>, kind: ObjKind, newVal: Value)
    requires target !in bucket
    ensures RunSet(bucket, sets, active, target, key, ty, kind, newVal) == Success({})
  {
  }

  /** Only a write of an array's length with a symbol key in the target's map throws. */
  lemma RunSetFailure(bucket: map<Addr, map<Key, SetId>>, sets: map<SetId, set<EffectId>>, active: Option<EffectId>,
                      target: Addr, key: Key, ty: Option<TriggerType>, kind: ObjKind, newVal: Value)
    ensures RunSet(bucket, sets, active, target, key, ty, kind, newVal).Failure?
            <==> target in bucket && kind == ArrayObject && key == LengthKey && HasSymbolKey(bucket[target])
  {
  }

  /** A SET on an ordinary object runs exactly the other subscribers of that key. */
  lemma RunSetPlainSet(bucket: map<Addr, map<Key, SetId>>, sets: map<SetId, set<EffectId>>, active: Option<EffectId>,
                       target: Addr, key: Key, newVal: Value)
    requires target in bucket
    ensures RunSet(bucket, sets, active, target, key, Some(SET), PlainObject, newVal)
            == Success(Others(Subscribers(bucket[target], sets, key), active))
  {
  }

  /** An ADD or DELETE also runs the effects that enumerate the target's keys. */
  lemma RunSetShapeChange(bucket: map<Addr, map<Key, SetId>>, sets: map<SetId, set<EffectId>>, active: Option<EffectId>,
                          target: Addr, key: Key, ty: TriggerType, kind: ObjKind, newVal: Value)
    requires target in bucket && ty != SET
    requires RunSet(bucket, sets, active, target, key, Some(ty), kind, newVal).Success?
    ensures Others(Subscribers(bucket[target], sets, key), active)
            <= RunSet(bucket, sets, active, target, key, Some(ty), kind, newVal).value
    ensures Others(Subscribers(bucket[target], sets, IterateKey), active)
            <= RunSet(bucket, sets, active, target, key, Some(ty), kind, newVal).value
  {
  }

  /**
   * Writing an array's length `n` runs the subscribers of every index at or above `n`, and an
   * effect subscribed to nothing but the key, `length`, the key iteration and indices below `n` does
   * not run for them.
   */
  lemma RunSetTruncation(bucket: map<Addr, map<Key, SetId>>, sets: map<SetId, set<EffectId>>, active: Option<EffectId>,
                         target: Addr, ty: Option<TriggerType>, n: nat, e: EffectId)
    requires target in bucket
    requires RunSet(bucket, sets, active, target, LengthKey, ty, ArrayObject, Num(Int(n))).Success?
    ensures forall i :: i >= n && Idx(i) in bucket[target] ==>
              Others(Subscribers(bucket[target], sets, Idx(i)), active)
              <= RunSet(bucket, sets, active, target, LengthKey, ty, ArrayObject, Num(Int(n))).value
    ensures e in RunSet(bucket, sets, active, target, LengthKey, ty, ArrayObject, Num(Int(n))).value ==>
              e in Subscribers(bucket[target], sets, LengthKey) || e in Subscribers(bucket[target], sets, IterateKey)
              || (exists i :: i >= n && Idx(i) in bucket[target] && e in Subscribers(bucket[target], sets, Idx(i)))
              || (exists s :: s in bucket[target] && s.Name? && s != LengthKey && KeyAtLeast(s, Int(n)) == Success(true)
                             && e in Subscribers(bucket[target], sets, s))
  {
    var dm := bucket[target];
    forall i | i >= n && Idx(i) in dm
      ensures Others(Subscribers(dm, sets, Idx(i)), active)
              <= RunSet(bucket, sets, active, target, LengthKey, ty, ArrayObject, Num(Int(n))).value
    {
      assert KeyAtLeast(Idx(i), Int(n)) == Success(true);
      forall x | x in Subscribers(dm, sets, Idx(i)) ensures x in AtOrAbove(dm, sets, dm.Keys, Int(n)) {
      }
    }
    var r := RunSet(bucket, sets, active, target, LengthKey, ty, ArrayObject, Num(Int(n))).value;
    if e in r && e !in Subscribers(dm, sets, LengthKey) && e !in Subscribers(dm, sets, IterateKey) {
      assert e in AtOrAbove(dm, sets, dm.Keys, Int(n));
      var k :| k in dm.Keys && k in dm && !k.SymKey? && KeyAtLeast(k, Int(n)) == Success(true)
               && dm[k] in sets && e in sets[dm[k]];
      assert e in Subscribers(dm, sets, k);
      if k.Idx? {
        assert k.i >= n;
      }
    }
  }

  /**
   * An effect that enumerated an array with `for ... in` subscribed to `ITERATE_KEY`, a symbol; a
   * later write of the array's length compares that key with a number and throws.
   */
  lemma ForInThenLengthWriteThrows(target: Addr, e: EffectId, n: nat)
    ensures RunSet(map[target := map[IterateKey := 0]], map[0 := {e}], None, target, LengthKey, Some(ADD),
                   ArrayObject, Num(Int(n))) == Failure(TypeError)
  {
    assert IterateKey in map[IterateKey := 0 as SetId] && IterateKey.SymKey?;
  }

  /**
   * The evidently intended run-set of the length branch: symbol keys are skipped instead of
   * compared, so a length write never throws.
   */
  function RunSetSkippingSymbols(bucket: map<Addr, map<Key, SetId>>, sets: map<SetId, set<EffectId>>, active: Option<EffectId>,
                                 target: Addr, key: Key, ty: Option<TriggerType>, kind: ObjKind, newVal: Value)
    : set<EffectId>
  {
    if target !in bucket then {}
    else
      var dm := bucket[target];
      Others(
        Subscribers(dm, sets, key) + LengthGroup(dm, sets, ty, kind) + TruncatedGroup(dm, sets, key, kind, newVal)
        + IterateGroup(dm, sets, ty, kind) + MapKeysGroup(dm, sets, ty, kind),
        active)
  }

  /**
   * The intended run-set agrees with the source wherever the source does not throw, and after a
   * length write it contains every other subscriber of each index at or above the new length.
   */
  lemma SkippingSymbolsAgrees(bucket: map<Addr, map<Key, SetId>>, sets: map<SetId, set<EffectId>>, active: Option<EffectId>,
                              target: Addr, key: Key, ty: Option<TriggerType>, kind: ObjKind, newVal: Value)
    ensures var r := RunSet(bucket, sets, active, target, key, ty, kind, newVal);
            r.Success? ==> r.value == RunSetSkippingSymbols(bucket, sets, active, target, key, ty, kind, newVal)
    ensures target in bucket && kind == ArrayObject && key == LengthKey && ToNumber(newVal).Int? ==>
            forall i: nat :: i >= ToNumber(newVal).i && Idx(i) in bucket[target] ==>
              Others(Subscribers(bucket[target], sets, Idx(i)), active)
              <= RunSetSkippingSymbols(bucket, sets, active, target, key, ty, kind, newVal)
  {
    if target in bucket && kind == ArrayObject && key == LengthKey && ToNumber(newVal).Int? {
      var dm := bucket[target];
      var n := ToNumber(newVal);
      forall i: nat | i >= n.i && Idx(i) in dm
        ensures Others(Subscribers(dm, sets, Idx(i)), active)
                <= RunSetSkippingSymbols(bucket, sets, active, target, key, ty, kind, newVal)
      {
        assert KeyAtLeast(Idx(i), n) == Success(true);
        forall x | x in Subscribers(dm, sets, Idx(i)) ensures x in AtOrAbove(dm, sets, dm.Keys, n) {
        }
      }
    }
  }

  lemma OthersAdd(acc: set<EffectId>, raw: set<EffectId>, g: set<EffectId>, active: Option<EffectId>)
    ensures acc == Others(raw, active) ==> acc + Others(g, active) == Others(raw + g, active)
  {
  }

  lemma AtOrAboveStep(dm: map<Key, SetId>, sets: map<SetId, set<EffectId>>, keys: set<Key>, k: Key, n: Number)
    requires !k.SymKey? && k in dm
    ensures AtOrAbove(dm, sets, keys + {k}, n)
            == AtOrAbove(dm, sets, keys, n) + (if KeyAtLeast(k, n) == Success(true) then Subscribers(dm, sets, k) else {})
  {
    var l := AtOrAbove(dm, sets, keys + {k}, n);
    var r := AtOrAbove(dm, sets, keys, n) + (if KeyAtLeast(k, n) == Success(true) then Subscribers(dm, sets, k) else {});
    forall e | e in l ensures e in r {
      var k' :| k' in keys + {k} && k' in dm && !k'.SymKey? && KeyAtLeast(k', n) == Success(true)
                && dm[k'] in sets && e in sets[dm[k']];
      if k' != k {
        assert e in AtOrAbove(dm, sets, keys, n);
      }
    }
  }

  /** An effect is in a subscriber set exactly when the set is in the effect's `deps`. */
  /** Whether effect `e` is in the set `bucket[target][key]`. */
  ghost predicate SubscribedIn(bucket: map<Addr, map<Key, SetId>>, sets: map<SetId, set<EffectId>>, e: EffectId, target: Addr, key: Key) {
    target in bucket && key in bucket[target] && bucket[target][key] in sets && e in sets[bucket[target][key]]
  }

  /** Every subscription of the first registry is one of the second. */
  ghost predicate KeepsSubscribers(bucket0: map<Addr, map<Key, SetId>>, sets0: map<SetId, set<EffectId>>,
                                   bucket: map<Addr, map<Key, SetId>>, sets: map<SetId, set<EffectId>>) {
    forall e, t, k :: SubscribedIn(bucket0, sets0, e, t, k) ==> SubscribedIn(bucket, sets, e, t, k)
  }

  /**
   * `track(target, key)` removes no subscription: it points `(target, key)` at its existing set or
   * at a new one, and only adds to a set.
   */
  lemma TrackKeepsSubscribers(bucket0: map<Addr, map<Key, SetId>>, sets0: map<SetId, set<EffectId>>,
                              bucket: map<Addr, map<Key, SetId>>, sets: map<SetId, set<EffectId>>, target: Addr, key: Key)
    requires forall t, k :: t in bucket0 && k in bucket0[t] ==> bucket0[t][k] in sets0
    requires target in bucket && key in bucket[target]
    requires var dm := if target in bucket0 then bucket0[target] else map[];
             bucket == bucket0[target := dm[key := bucket[target][key]]]
             && (key in dm ==> bucket[target][key] == dm[key]) && (key !in dm ==> bucket[target][key] !in sets0)
    requires forall s :: s in sets0 ==> s in sets && sets0[s] <= sets[s]
    ensures KeepsSubscribers(bucket0, sets0, bucket, sets)
  {
    forall e, t, k | SubscribedIn(bucket0, sets0, e, t, k)
      ensures SubscribedIn(bucket, sets, e, t, k)
    {
      assert bucket0[t][k] in sets0;
    }
  }

  ghost predicate Linked(sets: map<SetId, set<EffectId>>, deps: map<EffectId, seq<SetId>>) {
    (forall s, e :: s in sets && e in sets[s] ==> e in deps && s in deps[e])
    && (forall e, s :: e in deps && s in deps[e] ==> s in sets && e in sets[s])
  }

  /** Removing an effect from every set it is in, and emptying its `deps`, keeps the sets linked. */
  lemma UnlinkKeepsLinked(sets: map<SetId, set<EffectId>>, deps: map<EffectId, seq<SetId>>, e: EffectId,
                          sets2: map<SetId, set<EffectId>>)
    requires Linked(sets, deps) && e in deps
    requires sets2.Keys == sets.Keys && forall s :: s in sets ==> sets2[s] == sets[s] - {e}
    ensures Linked(sets2, deps[e := []])
  {
  }

  /** A new effect with empty `deps`, in no set yet, keeps the sets linked. */
  lemma NewEffectKeepsLinked(sets: map<SetId, set<EffectId>>, deps: map<EffectId, seq<SetId>>, e: EffectId)
    requires Linked(sets, deps) && e !in deps
    ensures Linked(sets, deps[e := []])
  {
  }

  /** A new, empty subscriber set keeps the sets linked. */
  lemma NewSetKeepsLinked(sets: map<SetId, set<EffectId>>, deps: map<EffectId, seq<SetId>>, s: SetId)
    requires Linked(sets, deps) && s !in sets
    ensures Linked(sets[s := {}], deps)
  {
  }

  /** Adding an effect to a set it is not in, and the set to the end of its `deps`, keeps the sets linked. */
  lemma LinkKeepsLinked(sets: map<SetId, set<EffectId>>, deps: map<EffectId, seq<SetId>>, e: EffectId, s: SetId)
    requires Linked(sets, deps) && s in sets && e in deps && e !in sets[s]
    ensures Linked(sets[s := sets[s] + {e}], deps[e := deps[e] + [s]])
  {
  }

  /** An effect is only in the sets its `deps` lists. */
  lemma OnlyInDeps(sets: map<SetId, set<EffectId>>, deps: map<EffectId, seq<SetId>>, e: EffectId, s: SetId)
    requires Linked(sets, deps) && s in sets && e in deps && s !in deps[e]
    ensures e !in sets[s]
  {
  }

  /** `for (const dep of deps) dep.delete(e)`, on the contents of the sets. */
  method RemoveFromEach(sets: map<SetId, set<EffectId>>, ds: seq<SetId>, e: EffectId) returns (r: map<SetId, set<EffectId>>)
    requires forall i :: 0 <= i < |ds| ==> ds[i] in sets
    ensures r.Keys == sets.Keys
    ensures forall s :: s in sets ==> r[s] == if s in ds then sets[s] - {e} else sets[s]
  {
    r := sets;
    var i := 0;
    while i < |ds|
      invariant 0 <= i <= |ds|
      invariant r.Keys == sets.Keys
      invariant forall s :: s in sets ==> r[s] == if s in ds[..i] then sets[s] - {e} else sets[s]
    {
      r := r[ds[i] := r[ds[i]] - {e}];
      assert ds[..i + 1] == ds[..i] + [ds[i]];
      i := i + 1;
    }
    assert ds[..i] == ds;
  }

  class Engine {
    /** target -> key -> subscriber set (the `bucket` and its maps). */
    var bucket: map<Addr, map<Key, SetId>>
    /** The contents of every subscriber `Set`, including the `dep` sets of refs. */
    var sets: map<SetId, set<EffectId>>
    /** `effectFn.options` of every effect. */
    var options: map<EffectId, EffectOptions>
    /** `effectFn.deps`: the sets each effect has been added to, in order. */
    var deps: map<EffectId, seq<SetId>>
    var effectStack: seq<EffectId>
    var activeEffect: Option<EffectId>
    var shouldTrack: bool
    var nextSet: SetId
    var nextEffect: EffectId

    /**
     * An effect is in a set exactly when the set is in its `deps`, which never repeats a set; the
     * active effect is the top of the stack.
     */
    ghost predicate Valid()
      reads this
    {
      options.Keys == deps.Keys
      && (forall e :: e in deps ==> NoDuplicates(deps[e]))
      && Linked(sets, deps)
      && (forall t, k :: t in bucket && k in bucket[t] ==> bucket[t][k] in sets)
      && (forall s :: s in sets ==> s < nextSet)
      && (forall e :: e in options ==> e < nextEffect)
      && (forall i :: 0 <= i < |effectStack| ==> effectStack[i] in options)
      && activeEffect == Top(effectStack)
    }

    constructor ()
      ensures Valid()
      ensures bucket == map[] && sets == map[] && options == map[] && deps == map[]
      ensures effectStack == [] && activeEffect == None && shouldTrack
    {
      bucket := map[];
      sets := map[];
      options := map[];
      deps := map[];
      effectStack := [];
      activeEffect := None;
      shouldTrack := true;
      nextSet := 0;
      nextEffect := 0;
    }

    /** `isTracking()`. */
    predicate IsTracking()
      reads this
    {
      shouldTrack && activeEffect.Some?
    }

    /** Whether the active effect is already in the set `bucket[target][key]`. */
    ghost predicate AlreadyTracked(target: Addr, key: Key)
      reads this
    {
      activeEffect.Some? && target in bucket && key in bucket[target] && bucket[target][key] in sets
      && activeEffect.value in sets[bucket[target][key]]
    }

    /** Nothing in the engine changed. */
    twostate predicate Unchanged()
      reads this
    {
      bucket == old(bucket) && sets == old(sets) && options == old(options) && deps == old(deps)
      && effectStack == old(effectStack) && activeEffect == old(activeEffect) && shouldTrack == old(shouldTrack)
      && nextSet == old(nextSet) && nextEffect == old(nextEffect)
    }

    /**
     * The engine after `track(target, key)` relative to before: unchanged without an active effect,
     * while paused, or when already subscribed; otherwise the map for `target` and the set for `key`
     * exist (a missing set is created) and the active effect and that set are linked both ways.
     */
    twostate predicate Tracked(target: Addr, key: Key)
      reads this
    {
      options == old(options) && nextEffect == old(nextEffect)
      && effectStack == old(effectStack) && activeEffect == old(activeEffect) && shouldTrack == old(shouldTrack)
      && if !old(IsTracking()) || old(AlreadyTracked(target, key)) then
           bucket == old(bucket) && sets == old(sets) && deps == old(deps) && nextSet == old(nextSet)
         else
           var e := old(activeEffect.value);
           var dm := if target in old(bucket) then old(bucket[target]) else map[];
           e in old(deps) && target in bucket && key in bucket[target]
           && var s := bucket[target][key];
           bucket == old(bucket)[target := dm[key := s]]
           && (key in dm ==> s == dm[key] && nextSet == old(nextSet))
           && (key !in dm ==> s == old(nextSet) && s !in old(sets) && nextSet == old(nextSet) + 1)
           && var before := if s in old(sets) then old(sets[s]) else {};
           sets == old(sets)[s := before + {e}]
           && deps == old(deps)[e := old(deps[e]) + [s]]
    }

    /**
     * The engine after `if (isTracking()) trackEffects(dep)` relative to before: unchanged unless
     * tracking, otherwise the active effect and the set `s` are linked both ways, `deps` growing only
     * when the effect was not yet in `s`.
     */
    twostate predicate TrackedIn(s: SetId)
      reads this
    {
      bucket == old(bucket) && options == old(options) && nextSet == old(nextSet) && nextEffect == old(nextEffect)
      && effectStack == old(effectStack) && activeEffect == old(activeEffect) && shouldTrack == old(shouldTrack)
      && if !old(IsTracking()) then sets == old(sets) && deps == old(deps)
         else
           var e := old(activeEffect.value);
           s in old(sets) && e in old(deps)
           && sets == old(sets)[s := old(sets[s]) + {e}]
           && deps == if e in old(sets[s]) then old(deps) else old(deps)[e := old(deps[e]) + [s]]
    }

    /** No effect was registered and no subscriber set removed. */
    twostate predicate KeepsEffects()
      reads this
    {
      options == old(options) && old(sets).Keys <= sets.Keys
    }

    /** `pauseTracking()`. */
    method PauseTracking()
      requires Valid()
      modifies this
      ensures Valid()
      ensures !shouldTrack
      ensures bucket == old(bucket) && sets == old(sets) && options == old(options) && deps == old(deps)
      ensures effectStack == old(effectStack) && activeEffect == old(activeEffect)
      ensures nextSet == old(nextSet) && nextEffect == old(nextEffect)
    {
      shouldTrack := false;
    }

    /** `enableTracking()`. */
    method EnableTracking()
      requires Valid()
      modifies this
      ensures Valid()
      ensures shouldTrack
      ensures bucket == old(bucket) && sets == old(sets) && options == old(options) && deps == old(deps)
      ensures effectStack == old(effectStack) && activeEffect == old(activeEffect)
      ensures nextSet == old(nextSet) && nextEffect == old(nextEffect)
    {
      shouldTrack := true;
    }

    /** Creates a new, empty subscriber set (`new Set()`). */
    method NewSet() returns (s: SetId)
      requires Valid()
      modifies this
      ensures Valid()
      ensures s == old(nextSet) && s !in old(sets) && sets == old(sets)[s := {}] && nextSet == s + 1
      ensures bucket == old(bucket) && options == old(options) && deps == old(deps)
      ensures effectStack == old(effectStack) && activeEffect == old(activeEffect) && shouldTrack == old(shouldTrack)
      ensures nextEffect == old(nextEffect)
    {
      s := nextSet;
      NewSetKeepsLinked(sets, deps, s);
      sets := sets[s := {}];
      nextSet := nextSet + 1;
    }

    /**
     * The registration part of `effect(fn, options)`: a new effect function with these options and
     * an empty `deps` array.
     */
    method NewEffect(opts: EffectOptions) returns (e: EffectId)
      requires Valid()
      modifies this
      ensures Valid()
      ensures e == old(nextEffect) && e !in old(options) && nextEffect == e + 1
      ensures options == old(options)[e := opts] && deps == old(deps)[e := []]
      ensures bucket == old(bucket) && sets == old(sets) && nextSet == old(nextSet)
      ensures effectStack == old(effectStack) && activeEffect == old(activeEffect) && shouldTrack == old(shouldTrack)
    {
      e := nextEffect;
      NewEffectKeepsLinked(sets, deps, e);
      options := options[e := opts];
      deps := deps[e := []];
      nextEffect := nextEffect + 1;
    }

    /**
     * `trackEffects(dep)`: adds the active effect to `dep` and `dep` to the effect's `deps`, unless
     * the effect is already in it.
     */
    method TrackEffects(s: SetId)
      requires Valid() && s in sets && activeEffect.Some?
      modifies this
      ensures Valid()
      ensures old(activeEffect.value) in old(deps)
      ensures var e := old(activeEffect.value);
        sets == old(sets)[s := old(sets[s]) + {e}]
        && (e in old(sets[s]) ==> sets == old(sets))
        && deps == if e in old(sets[s]) then old(deps) else old(deps)[e := old(deps[e]) + [s]]
      ensures old(activeEffect.value) in sets[s] && s in deps[old(activeEffect.value)]
      ensures bucket == old(bucket) && options == old(options) && nextSet == old(nextSet) && nextEffect == old(nextEffect)
      ensures effectStack == old(effectStack) && activeEffect == old(activeEffect) && shouldTrack == old(shouldTrack)
    {
      var e := activeEffect.value;
      assert e in options;
      if e in sets[s] {
        assert sets[s] + {e} == sets[s];
        assert sets == sets[s := sets[s] + {e}];
        return;
      }
      LinkKeepsLinked(sets, deps, e, s);
      assert s !in deps[e];
      sets := sets[s := sets[s] + {e}];
      deps := deps[e := deps[e] + [s]];
    }

    /**
     * `track(target, key)`: without an active effect or while tracking is paused nothing changes;
     * otherwise the map for `target` and the set for `key` are created if missing and the active
     * effect is subscribed to that set.
     */
    method Track(target: Addr, key: Key)
      requires Valid()
      modifies this
      ensures Valid()
      ensures Tracked(target, key) && KeepsEffects()
      ensures old(IsTracking()) ==> AlreadyTracked(target, key) && bucket[target][key] in deps[activeEffect.value]
      ensures KeepsSubscriptions()
    {
      if activeEffect.None? || !shouldTrack {
        return;
      }
      var s := SetFor(target, key);
      TrackEffects(s);
      TrackKeepsSubscribers(old(bucket), old(sets), bucket, sets, target, key);
    }

    /**
     * `depsMap.get(key)` of `bucket.get(target)`, with the map and the set created and stored
     * when missing.
     */
    method SetFor(target: Addr, key: Key) returns (s: SetId)
      requires Valid()
      modifies this
      ensures Valid() && s in sets
      ensures var dm := if target in old(bucket) then old(bucket[target]) else map[];
        bucket == old(bucket)[target := dm[key := s]]
        && (key in dm ==> s == dm[key] && bucket == old(bucket) && sets == old(sets) && nextSet == old(nextSet))
        && (key !in dm ==> s == old(nextSet) && s !in old(sets) && sets == old(sets)[s := {}] && nextSet == old(nextSet) + 1)
      ensures options == old(options) && deps == old(deps) && nextEffect == old(nextEffect)
      ensures effectStack == old(effectStack) && activeEffect == old(activeEffect) && shouldTrack == old(shouldTrack)
    {
      var dm := if target in bucket then bucket[target] else map[];
      if key in dm {
        s := dm[key];
        assert target in bucket && dm[key := s] == dm;
      } else {
        s := NewSet();
        bucket := bucket[target := dm[key := s]];
      }
    }

    /**
     * `cleanup(effectFn)`: removes the effect from every set in its `deps`, one by one, then
     * empties `deps`. With `Valid`, the effect is then in no set at all.
     */
    method Cleanup(e: EffectId)
      requires Valid() && e in deps
      modifies this
      ensures Valid()
      ensures deps == old(deps)[e := []]
      ensures sets.Keys == old(sets).Keys
      ensures forall s :: s in sets ==> e !in sets[s] && sets[s] == old(sets[s]) - {e}
      ensures bucket == old(bucket) && options == old(options) && nextSet == old(nextSet) && nextEffect == old(nextEffect)
      ensures effectStack == old(effectStack) && activeEffect == old(activeEffect) && shouldTrack == old(shouldTrack)
    {
      var ds := deps[e];
      var r := RemoveFromEach(sets, ds, e);
      forall s | s in sets
        ensures r[s] == old(sets[s]) - {e}
      {
        if s !in ds {
          OnlyInDeps(sets, deps, e, s);
        }
      }
      UnlinkKeepsLinked(sets, deps, e, r);
      sets := r;
      deps := deps[e := []];
    }

    /**
     * The first half of running `effectFn`: clean up its dependencies, make it the active effect
     * and push it.
     */
    method BeginRun(e: EffectId)
      requires Valid() && e in deps
      modifies this
      ensures Valid()
      ensures effectStack == old(effectStack) + [e] && activeEffect == Some(e)
      ensures deps == old(deps)[e := []]
      ensures sets.Keys == old(sets).Keys
      ensures forall s :: s in sets ==> e !in sets[s] && sets[s] == old(sets[s]) - {e}
      ensures bucket == old(bucket) && options == old(options) && nextSet == old(nextSet) && nextEffect == old(nextEffect)
      ensures shouldTrack == old(shouldTrack)
    {
      Cleanup(e);
      activeEffect := Some(e);
      effectStack := effectStack + [e];
    }

    /** The second half of running `effectFn`: pop the stack and restore the active effect to its new top. */
    method EndRun()
      requires Valid() && effectStack != []
      modifies this
      ensures Valid()
      ensures effectStack == old(effectStack)[..|old(effectStack)| - 1] && activeEffect == Top(effectStack)
      ensures bucket == old(bucket) && sets == old(sets) && options == old(options) && deps == old(deps)
      ensures nextSet == old(nextSet) && nextEffect == old(nextEffect) && shouldTrack == old(shouldTrack)
    {
      effectStack := effectStack[..|effectStack| - 1];
      activeEffect := Top(effectStack);
    }

    /** Whether effect `e` is in the set `bucket[target][key]`. */
    ghost predicate Subscribed(e: EffectId, target: Addr, key: Key)
      reads this
    {
      SubscribedIn(bucket, sets, e, target, key)
    }

    /** Every subscription there was before is still there. */
    twostate predicate KeepsSubscriptions()
      reads this
    {
      KeepsSubscribers(old(bucket), old(sets), bucket, sets)
    }

    /**
     * `effectFn` run while tracking is paused, as when a `push` inside another effect triggers it:
     * its cleanup unsubscribes it everywhere and the read it then makes records nothing, so it ends
     * subscribed to no set at all, not even the one it has just read.
     */
    method RunReadingPaused(e: EffectId, target: Addr, key: Key)
      requires Valid() && e in deps && !shouldTrack
      modifies this
      ensures Valid() && !shouldTrack
      ensures e in deps && deps[e] == [] && forall s :: s in sets ==> e !in sets[s]
      ensures !Subscribed(e, target, key)
    {
      BeginRun(e);
      Track(target, key);
      EndRun();
    }

    /**
     * The evidently intended start of `effectFn`: as `BeginRun`, and tracking is switched on for the
     * run, the caller's setting being handed back to restore afterwards.
     */
    method BeginRunTracking(e: EffectId) returns (saved: bool)
      requires Valid() && e in deps
      modifies this
      ensures Valid() && shouldTrack && saved == old(shouldTrack)
      ensures effectStack == old(effectStack) + [e] && activeEffect == Some(e)
      ensures deps == old(deps)[e := []]
      ensures sets.Keys == old(sets).Keys
      ensures forall s :: s in sets ==> e !in sets[s] && sets[s] == old(sets[s]) - {e}
      ensures bucket == old(bucket) && options == old(options) && nextSet == old(nextSet) && nextEffect == old(nextEffect)
    {
      saved := shouldTrack;
      BeginRun(e);
      EnableTracking();
    }

    /** The evidently intended end of `effectFn`: as `EndRun`, and the caller's tracking setting is restored. */
    method EndRunRestoring(saved: bool)
      requires Valid() && effectStack != []
      modifies this
      ensures Valid() && shouldTrack == saved
      ensures effectStack == old(effectStack)[..|old(effectStack)| - 1] && activeEffect == Top(effectStack)
      ensures bucket == old(bucket) && sets == old(sets) && options == old(options) && deps == old(deps)
      ensures nextSet == old(nextSet) && nextEffect == old(nextEffect)
    {
      EndRun();
      if saved {
        EnableTracking();
      } else {
        PauseTracking();
      }
    }

    /**
     * With the intended start and end, the same run subscribes the effect to the set it read,
     * whether or not its caller had paused tracking, and leaves the caller's setting as it was.
     */
    method RunReadingTracked(e: EffectId, target: Addr, key: Key)
      requires Valid() && e in deps
      modifies this
      ensures Valid() && shouldTrack == old(shouldTrack)
      ensures Subscribed(e, target, key)
    {
      var saved := BeginRunTracking(e);
      Track(target, key);
      EndRunRestoring(saved);
    }

    /** `effects && effects.forEach(f => f !== activeEffect && effectsToRun.add(f))`. */
    method AddOthers(acc: set<EffectId>, effects: set<EffectId>) returns (r: set<EffectId>)
      ensures r == acc + Others(effects, activeEffect)
    {
      r := acc;
      var rest := effects;
      while rest != {}
        invariant rest <= effects
        invariant r == acc + Others(effects - rest, activeEffect)
        decreases rest
      {
        var e :| e in rest;
        if Some(e) != activeEffect {
          r := r + {e};
        }
        rest := rest - {e};
      }
    }

    /** The `depsMap.forEach` of the length branch: fails on a symbol key, else adds the keys `>= n`. */
    method AddTruncated(acc: set<EffectId>, dm: map<Key, SetId>, n: Number) returns (r: Result<set<EffectId>, JsError>)
      ensures r == if HasSymbolKey(dm) then Failure(TypeError)
                   else Success(acc + Others(AtOrAbove(dm, sets, dm.Keys, n), activeEffect))
    {
      var cur := acc;
      var keys := dm.Keys;
      while keys != {}
        invariant keys <= dm.Keys
        invariant forall k :: k in dm.Keys - keys ==> !k.SymKey?
        invariant cur == acc + Others(AtOrAbove(dm, sets, dm.Keys - keys, n), activeEffect)
        decreases keys
      {
        var k :| k in keys;
        if k.SymKey? {
          return Failure(TypeError);
        }
        AtOrAboveStep(dm, sets, dm.Keys - keys, k, n);
        assert dm.Keys - (keys - {k}) == (dm.Keys - keys) + {k};
        if KeyAtLeast(k, n).value {
          cur := AddOthers(cur, Subscribers(dm, sets, k));
        }
        keys := keys - {k};
      }
      assert dm.Keys - keys == dm.Keys;
      return Success(cur);
    }

    /** The subscribers of the key itself and, on an ADD to an array, those of `length`. */
    method KeyEffects(dm: map<Key, SetId>, key: Key, ty: Option<TriggerType>, kind: ObjKind) returns (acc: set<EffectId>)
      ensures acc == Others(Subscribers(dm, sets, key) + LengthGroup(dm, sets, ty, kind), activeEffect)
    {
      acc := AddOthers({}, Subscribers(dm, sets, key));
      if ty == Some(ADD) && kind == ArrayObject {
        acc := AddOthers(acc, Subscribers(dm, sets, LengthKey));
      }
    }

    /** The `ITERATE_KEY` and map-key iteration subscribers, for the operation kinds that join them. */
    method IterateEffects(acc0: set<EffectId>, dm: map<Key, SetId>, ty: Option<TriggerType>, kind: ObjKind)
      returns (acc: set<EffectId>)
      ensures acc == acc0 + Others(IterateGroup(dm, sets, ty, kind) + MapKeysGroup(dm, sets, ty, kind), activeEffect)
    {
      acc := acc0;
      if ty == Some(ADD) || ty == Some(DELETE) || (ty == Some(SET) && kind == MapObject) {
        acc := AddOthers(acc, Subscribers(dm, sets, IterateKey));
      }
      if (ty == Some(ADD) || ty == Some(DELETE)) && kind == MapObject {
        acc := AddOthers(acc, Subscribers(dm, sets, MapKeyIterateKey));
      }
    }

    /**
     * The run-set `trigger(target, key, type, newVal)` builds before handing it to `triggerEffects`;
     * `kind` is what `Array.isArray(target)` and `toRawType(target)` report.
     */
    method EffectsToRun(target: Addr, key: Key, ty: Option<TriggerType>, kind: ObjKind, newVal: Value)
      returns (r: Result<set<EffectId>, JsError>)
      ensures r == RunSet(bucket, sets, activeEffect, target, key, ty, kind, newVal)
    {
      if target !in bucket {
        return Success({});
      }
      var dm := bucket[target];
      var acc := KeyEffects(dm, key, ty, kind);
      ghost var kl := Subscribers(dm, sets, key) + LengthGroup(dm, sets, ty, kind);
      OthersAdd(acc, kl, TruncatedGroup(dm, sets, key, kind, newVal), activeEffect);
      if kind == ArrayObject && key == LengthKey {
        var t := AddTruncated(acc, dm, ToNumber(newVal));
        if t.Failure? {
          return t;
        }
        acc := t.value;
      }
      ghost var klt := kl + TruncatedGroup(dm, sets, key, kind, newVal);
      assert acc == Others(klt, activeEffect);
      ghost var im := IterateGroup(dm, sets, ty, kind) + MapKeysGroup(dm, sets, ty, kind);
      OthersAdd(acc, klt, im, activeEffect);
      acc := IterateEffects(acc, dm, ty, kind);
      assert klt + im == kl + TruncatedGroup(dm, sets, key, kind, newVal) + IterateGroup(dm, sets, ty, kind)
                         + MapKeysGroup(dm, sets, ty, kind);
      assert !(kind == ArrayObject && key == LengthKey && HasSymbolKey(dm));
      return Success(acc);
    }
  }
}
