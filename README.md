# mini-vue-again reactivity, modelled in Dafny

This project models the reactivity engine of mini-vue-again together with a few self-contained
algorithms from its renderer. The reactivity engine is `packages/reactivity/src`: effects, the
dependency store, proxy handlers, the cache of wrappers, refs, computed values and watchers.

- **Dependency store and effect runner** (`effect.dfy`, class `Effect.Engine`). It holds the
  global state of `effect.ts`:
  - `bucket`, from target to key to subscriber set;
  - the subscriber sets themselves;
  - each effect's `deps` list and options;
  - `effectStack` and `activeEffect`;
  - the `shouldTrack` flag.

  `track`, `trackEffects`, `cleanup` and the start and end of `effectFn` are methods that change
  this state. The run-set that `trigger` builds is the function `Effect.RunSet`, and
  `Effect.Engine.EffectsToRun` computes it group by group.
- **Object store** (`heap.dfy`, class `Heap.Store`). It holds every object: ordinary objects,
  arrays and Map-kinded objects with their own properties, plus wrappers, refs and computed
  objects. It also has the raw `[[Set]]` and `[[Delete]]` of ordinary objects and arrays,
  including the truncation an array's `length` write performs.
- **Proxy handlers** (`base_handlers.dfy`).
  - The `get`, `set`, `has`, `ownKeys` and `deleteProperty` traps work on the store.
  - Their pure parts are functions: the classification of a write, the change test, the
    receiver guard, and the reserved keys.
- **Wrapper cache** (`reactive.dfy`, class `Reactive.ProxyCache`). `reactiveMap` is keyed by the
  raw object only.
- **Refs, computed values and watchers** (`ref.dfy`, `computed.dfy`, `watch.dfy`). Each is a class
  with the fields the source keeps:
  - `RefImpl`: `_rawValue`, `_value` and `dep`;
  - computed values: the closure variables `dirty` and `value`;
  - watchers: the closure variables `oldValue` and `newValue`.
- **The program around the engine** (`runtime.dfy`, class `Runtime.Runtime`).
  - Effect bodies, computed getters and watch getters are user code, written here in a small
    statement language and run by an interpreter.
  - The interpreter calls the engine's methods in the source's order. It runs user code exactly
    where the source does: inside `effectFn`, inside `triggerEffects`, in the two schedulers,
    and behind the array instrumentations.
  - Every call carries a `fuel` bound. Running out of fuel stands for the stack overflow of
    unbounded recursion.
- **Renderer algorithms** (`renderer.dfy`): `getSequence`, `hasPropsChanged`, `resolveProps`, and
  the `source`/`keyIndex`/`moved` section of the keyed diff. The `normalizeClass` utility is in
  `normalize_props.dfy`.

The interpreter and the classes it drives follow the code as written, including the defects
listed under "## Findings". For each defect, the corrected definition is proved beside the
as-written one and is not wired into the interpreter, because the interpreter models the source.

Some things are parameters or records instead of code:
- Calls of user schedulers and of watch callbacks are recorded in `Runtime.World`; their code is
  not run.
- Console warnings are not modelled.
- JavaScript values are the `Values.Value` datatype. Numbers are NaN or integers.

Places where the model had to choose a reading:
- `hasChanged`, `isObject`, `toRaw` and `toReactive` are imported but not defined by the shown
  files. They are defined from their uses:
  - `hasChanged` is the NaN-aware inequality of the setter;
  - `toRaw` unwraps wrappers;
  - `toReactive` is `reactive` for objects.
- `MAP_KEY_ITERATE_KEY` is imported by `effect.ts` but never exported by `reactive.ts`. It is
  modelled as a reserved symbol key, `SymKey(-1)`, that no value a program holds converts to,
  so no read, write or `in` test of a program can subscribe to it. `ITERATE_KEY` is exported,
  so a program can hold it: the symbol value `Symbol(0)` stands for it, and every other
  `Symbol(id)` is a symbol the program created itself.

## Model

| member | source | states |
|---|---|---|
| Effect.Engine.constructor | packages/reactivity/src/effect.ts:22-26 | the engine starts with an empty bucket, no effects, an empty stack, no active effect and tracking on |
| Effect.Engine.PauseTracking | packages/reactivity/src/effect.ts:215-217 | `shouldTrack` becomes false and nothing else changes |
| Effect.Engine.EnableTracking | packages/reactivity/src/effect.ts:219-221 | `shouldTrack` becomes true and nothing else changes |
| Effect.Engine.NewEffect | packages/reactivity/src/effect.ts:49-53 | a fresh effect id gets its options and an empty `deps` list; the bucket, the sets, the stack and the active effect are untouched |
| Effect.Engine.NewSet | packages/reactivity/src/effect.ts:97-99 | a fresh, empty subscriber set is added and nothing else changes |
| Effect.Engine.SetFor | packages/reactivity/src/effect.ts:85-99 | returns the set registered for (target, key) when there is one and changes nothing; otherwise registers a fresh empty set under that pair |
| Effect.Engine.TrackEffects | packages/reactivity/src/effect.ts:104-113 | afterwards the active effect is in the set and the set is in its `deps`; when it was already subscribed, `deps` and the sets are unchanged, otherwise the set is appended to `deps` once |
| Effect.Engine.Track | packages/reactivity/src/effect.ts:80-102 | without an active effect, with tracking paused, or when already subscribed, nothing changes; otherwise a missing map or set is created, the active effect joins `bucket[target][key]` and that set is appended to its `deps` once; no subscription is ever removed |
| Effect.TrackKeepsSubscribers | packages/reactivity/src/effect.ts:88-99 | pointing `(target, key)` at its existing set or at a new one, and adding to sets, removes no subscription |
| Effect.Engine.Cleanup | packages/reactivity/src/effect.ts:65-76 | the effect is removed from every subscriber set, its `deps` becomes empty, every other membership is kept, and the other state is unchanged |
| Effect.RemoveFromEach | packages/reactivity/src/effect.ts:67-72 | removes the effect from exactly the sets listed in `deps`, leaving every other set as it was |
| Effect.UnlinkKeepsLinked | packages/reactivity/src/effect.ts:65-76 | clearing an effect's `deps` and removing it from every set keeps the two-way link between sets and `deps` |
| Effect.LinkKeepsLinked | packages/reactivity/src/effect.ts:104-113 | adding the active effect to a set and that set to its `deps` keeps the two-way link |
| Effect.OnlyInDeps | packages/reactivity/src/effect.ts:65-76 | an effect is a member only of the sets its `deps` names, which is why `cleanup` reaches every set the effect is in |
| Effect.Engine.BeginRun | packages/reactivity/src/effect.ts:31-38 | the start of `effectFn`: the effect is cleaned up, pushed and made active |
| Effect.Engine.EndRun | packages/reactivity/src/effect.ts:42-44 | the stack loses its top and the active effect becomes the new top, or none on an empty stack |
| Effect.Others | packages/reactivity/src/effect.ts:133-137 | an effect makes the selection exactly when it is in the group and is not the active one |
| Effect.Engine.AddOthers | packages/reactivity/src/effect.ts:133-137 | adds to the run-set every effect of the group except the active one |
| Effect.Engine.KeyEffects | packages/reactivity/src/effect.ts:124-149 | collects the key's subscribers and, on an array ADD, the `length` subscribers, minus the active effect |
| Effect.Engine.AddTruncated | packages/reactivity/src/effect.ts:152-164 | fails with a TypeError when the target's keys include a symbol; otherwise adds every subscriber of a key at or above the new length |
| Effect.Engine.IterateEffects | packages/reactivity/src/effect.ts:166-195 | adds the `ITERATE_KEY` group for ADD and DELETE, and for SET on a Map, plus the map-key group for an ADD or DELETE on a Map |
| Effect.Engine.EffectsToRun | packages/reactivity/src/effect.ts:116-198 | the run-set it builds equals `RunSet` of the current state |
| Effect.RunSetExcludesActive | packages/reactivity/src/effect.ts:133-137 | the active effect is never in the run-set, so `obj.foo++` inside an effect does not re-run it |
| Effect.RunSetRegistered | packages/reactivity/src/effect.ts:116-198 | every effect in the run-set is a subscriber of some set |
| Effect.RunSetWithoutRegistry | packages/reactivity/src/effect.ts:119-121 | a target nobody has read runs nothing |
| Effect.RunSetFailure | packages/reactivity/src/effect.ts:152-164 | the trigger throws if and only if an array's `length` is written while a symbol key is registered for that array |
| Effect.RunSetPlainSet | packages/reactivity/src/effect.ts:124-137 | a SET on an ordinary object runs exactly the key's subscribers other than the active effect |
| Effect.RunSetShapeChange | packages/reactivity/src/effect.ts:166-179 | an ADD or DELETE runs the key's subscribers and the `ITERATE_KEY` subscribers |
| Effect.RunSetTruncation | packages/reactivity/src/effect.ts:152-164 | a `length` write of `n` runs the subscribers of every index at or above `n`; an effect it runs is subscribed to the key, to the key iteration, to such an index, or to a name that compares at or above `n` |
| Effect.ForInThenLengthWriteThrows | packages/reactivity/src/effect.ts:155-156 | a registry holding `ITERATE_KEY` for an array makes a `length` write throw (F3) |
| Effect.SkippingSymbolsAgrees | packages/reactivity/src/effect.ts:152-164 | the corrected run-set equals the written one whenever that does not throw, and always covers the subscribers of indices at or above the new length (F3) |
| Effect.Engine.RunReadingPaused | packages/reactivity/src/effect.ts:31-47 | as written, an effect run while tracking is paused is cleaned up and then subscribes to nothing, not even to what it reads (F6) |
| Effect.Engine.BeginRunTracking | packages/reactivity/src/effect.ts:31-38 | the corrected run start: as `BeginRun`, and tracking is switched on with its previous value returned (F6) |
| Effect.Engine.EndRunRestoring | packages/reactivity/src/effect.ts:42-44 | the corrected run end: as `EndRun`, and the saved tracking flag is restored (F6) |
| Effect.Engine.RunReadingTracked | packages/reactivity/src/effect.ts:31-47 | with the corrected start and end, an effect run while tracking is paused still ends subscribed to what it read, and the caller's tracking flag is restored (F6) |
| Values.HasChanged | packages/reactivity/src/baseHandlers.ts:124 | the setter's change test holds exactly when the values differ, NaN counting as equal to NaN |
| Values.MapKeyIterateKeyUnreachable | packages/reactivity/src/reactive.ts:59 | no value a program holds converts to the map-key iteration key, which `reactive.ts` does not export |
| Values.IterateKeyIsSymbolZero | packages/reactivity/src/reactive.ts:59 | the exported `ITERATE_KEY` is exactly the key of the symbol value `Symbol(0)` |
| Values.KeyAtLeast | packages/reactivity/src/effect.ts:156 | `key >= Number(newVal)` throws exactly for a symbol key, compares indices numerically, and is false against NaN |
| Values.NumberKeyRoundTrip | packages/reactivity/src/baseHandlers.ts:117 | `Number` of the key a number makes gives that number back, for indices and for negative integers |
| Values.NumberKeyAtLeast | packages/reactivity/src/effect.ts:156 | `key >= Number(newVal)` on the key of an integer compares that integer, negative ones included |
| Values.SignedNames | packages/reactivity/src/baseHandlers.ts:117 | `Number("-1")` is -1 and `Number("+1")` is 1 |
| Values.NegativeZeroName | packages/reactivity/src/baseHandlers.ts:117 | `Number("-0")` is 0, so a key `"-0"` compares as 0 |
| Values.NegativeNumeral | packages/reactivity/src/baseHandlers.ts:117 | `Number` of a minus sign and digits is minus the decimal value of the digits |
| Values.PositiveNumeral | packages/reactivity/src/baseHandlers.ts:117 | `Number` of a plus sign and digits is the decimal value of the digits |
| Values.IntegerLiteralValue | packages/reactivity/src/baseHandlers.ts:117 | `Number` of a string of decimal digits is their decimal value |
| Values.DecimalLiteralValue | packages/reactivity/src/effect.ts:156 | a decimal literal with integer digits `d`, fraction digits `f` and an exponent part is the number `df` scaled by the exponent minus the length of `f` |
| Values.ExponentName | packages/reactivity/src/effect.ts:156 | `Number("1e3")` is 1000 |
| Values.FractionExponentName | packages/reactivity/src/effect.ts:156 | `Number("2.50e1")` is 25 |
| Values.HexName | packages/reactivity/src/baseHandlers.ts:117 | `Number("0x1F")` is 31 |
| Values.FractionName | packages/reactivity/src/baseHandlers.ts:117 | `Number("1.5")` is NaN, since non-integers are outside the model |
| Values.WordName | packages/reactivity/src/baseHandlers.ts:117 | `Number("length")` is NaN, so a name key on an array is never below its length |
| Values.TrimStart | packages/shared/src/normalizeProps.ts:21 | the result is a suffix of the input with no leading whitespace, and every character removed before it is whitespace |
| Values.TrimEnd | packages/shared/src/normalizeProps.ts:21 | the result is a prefix of the input with no trailing whitespace, and every character removed after it is whitespace |
| Values.Trim | packages/shared/src/normalizeProps.ts:21 | the result has neither leading nor trailing whitespace |
| Values.TrimSlice | packages/shared/src/normalizeProps.ts:21 | the trim of any string is a slice of it with only whitespace outside, so `trim` removes the surrounding whitespace and nothing else |
| Heap.Truncate | packages/reactivity/src/baseHandlers.ts:120 | after a `length` write of `n`, the array keeps exactly its other keys and its indices below `n` |
| Heap.LengthWriteTruncates | packages/reactivity/src/baseHandlers.ts:120 | writing a valid length deletes every index at or above it and keeps every other property with its value |
| Heap.BadLengthThrows | packages/reactivity/src/baseHandlers.ts:120 | writing a `length` that is not a valid array length throws a RangeError |
| Heap.RawSetStores | packages/reactivity/src/baseHandlers.ts:120 | any write other than an array's `length` succeeds, and reading the key back gives the value |
| Heap.RawDeleteRemoves | packages/reactivity/src/baseHandlers.ts:158 | a successful delete removes exactly the key; only an array's `length` refuses |
| Heap.Store.Alloc | packages/reactivity/src/reactive.ts:43 | a new object gets a fresh address, and every existing object is kept |
| Reactive.ToRaw | packages/reactivity/src/ref.ts:13 | `toRaw` maps objects to objects and primitives to themselves, and unwraps a wrapper to its target, transitively |
| Reactive.ProxyCache.constructor | packages/reactivity/src/reactive.ts:19 | `reactiveMap` starts empty |
| Reactive.ProxyCache.CreateReactiveObject | packages/reactivity/src/reactive.ts:37-49 | a cached target returns its existing wrapper, whatever the handlers, and creates nothing; otherwise a new wrapper of the target with these handlers is allocated and cached |
| Reactive.ProxyCache.ToReactive | packages/reactivity/src/ref.ts:14 | a primitive is returned unchanged; an object gets its cached wrapper, or a newly created mutable one |
| BaseHandlers.InstrumentedMethod | packages/reactivity/src/baseHandlers.ts:76 | the key names an instrumented array method exactly when it is one of the eight method names |
| BaseHandlers.ReactiveIsNotReadonly | packages/reactivity/src/baseHandlers.ts:62-73 | `__v_raw` gives the target and `__v_isReadonly` gives whether the handlers are readonly; `__v_isReactive` is its negation, and no other key is reserved |
| BaseHandlers.Get | packages/reactivity/src/baseHandlers.ts:60-101 | reserved keys and instrumented array methods are answered without tracking; other keys track exactly when the wrapper is not readonly and the key is not a symbol; a shallow wrapper or a primitive result is returned as read; otherwise nested objects are wrapped through the cache (`readonly` under readonly handlers, `reactive` otherwise); a tracked read leaves the active effect subscribed to `(target, key)`, and no read removes a subscription |
| BaseHandlers.ClassifyArrayIndex | packages/reactivity/src/baseHandlers.ts:116-117 | an array index write is a SET below the length and an ADD at or above it |
| BaseHandlers.ClassifyArrayOddKeys | packages/reactivity/src/baseHandlers.ts:117 | writing an array's `length` is classified ADD, and a symbol key on an array throws |
| BaseHandlers.ClassifyNegativeName | packages/reactivity/src/baseHandlers.ts:116-117 | writing the key of a negative integer on an array is a SET, since `Number` of it is below every length |
| BaseHandlers.ClassifyObject | packages/reactivity/src/baseHandlers.ts:118 | outside arrays, a write is a SET if and only if the key is an own property, and an ADD otherwise |
| BaseHandlers.UnchangedWriteIsSilent | packages/reactivity/src/baseHandlers.ts:124-127 | writing the value already held never asks for a trigger |
| BaseHandlers.NaNOverNaNIsSilent | packages/reactivity/src/baseHandlers.ts:124 | NaN written over NaN does not trigger |
| BaseHandlers.ForeignReceiverIsSilent | packages/reactivity/src/baseHandlers.ts:122 | a write whose receiver's raw object is not the target never triggers |
| BaseHandlers.ChangingWriteTriggers | packages/reactivity/src/baseHandlers.ts:116-127 | a changing write through the wrapper itself succeeds, stores the value and asks for a trigger with its classification |
| BaseHandlers.RawReadonlyFlagSkips | packages/reactivity/src/baseHandlers.ts:109-112 | a raw object carrying a truthy `__v_isReadonly` is left as it was, with no trigger |
| BaseHandlers.Set | packages/reactivity/src/baseHandlers.ts:105-131 | the target's new properties and the trigger request are those of the setter's outcome; a failed write leaves the store unchanged |
| BaseHandlers.DeleteTriggersOnRemoval | packages/reactivity/src/baseHandlers.ts:148-166 | a delete asks for a DELETE trigger if and only if it removes an own key; a refused delete leaves the object as it was |
| BaseHandlers.DeleteProperty | packages/reactivity/src/baseHandlers.ts:148-166 | the store, the result and the trigger request are those of the delete outcome |
| BaseHandlers.Has | packages/reactivity/src/baseHandlers.ts:135-138 | records the read of the key, symbols included, and answers whether it is an own key |
| BaseHandlers.OwnKeysTrap | packages/reactivity/src/baseHandlers.ts:141-145 | subscribes the active effect to `ITERATE_KEY`, removes no subscription, and returns the own keys |
| Ref.RefImpl.constructor | packages/reactivity/src/ref.ts:11-16 | the raw value is `toRaw(v)`; the shown value is `v` for a primitive and the cached reactive wrapper for an object; `dep` is a new empty set; effects and the stack are untouched |
| Ref.RefImpl.TrackRefValue | packages/reactivity/src/ref.ts:36-40 | subscribes the active effect to `dep` exactly when `isTracking()` holds, and otherwise leaves the engine unchanged |
| Ref.RefImpl.GetValue | packages/reactivity/src/ref.ts:18-22 | returns `_value`, and after a tracking read the active effect is in `dep` |
| Ref.RefImpl.SetValue | packages/reactivity/src/ref.ts:24-33 | an unchanged value changes nothing and runs nothing; a changed one updates both slots (wrapping an object through the cache) and runs the whole of `dep`, the active effect included when it is subscribed (F4) |
| Ref.SelfWriteRerunsReader | packages/reactivity/src/ref.ts:31 | an effect subscribed to a ref is in the set a changing write of that ref runs as written, and not in the corrected set when it is the active effect, so as written `r.value++` inside an effect re-runs it from within itself (F4) |
| Ref.GuardedRefRunSetAgrees | packages/reactivity/src/ref.ts:31 | the corrected ref run-set is `dep` minus the active effect and nothing more (F4) |
| Ref.IsRef | packages/reactivity/src/ref.ts:46-48 | `isRef` throws exactly for `undefined` and `null` |
| Ref.IsRefExactlyRefs | packages/reactivity/src/ref.ts:46-48 | `isRef` is true for a `RefImpl`; it is false for a computed object, for an object without its own `__v_isRef`, and for the other primitives |
| Ref.IsRefGuardedAgrees | packages/reactivity/src/ref.ts:46-48 | the guarded test `!!(v && v.__v_isRef)` equals `isRef` on every object and is false, without throwing, for `undefined` and `null` (F5) |
| Ref.ForInVisits | packages/reactivity/src/ref.ts:67 | `for ... in` visits exactly the own indices and names, never a symbol, and skips an array's `length`; over a one-element array it visits only `0` |
| Computed.ComputedRef.constructor | packages/reactivity/src/computed.ts:5-8 | a computed value starts dirty with nothing cached |
| Computed.ComputedRef.Schedule | packages/reactivity/src/computed.ts:14-20 | the scheduler leaves the computed dirty with its cached value, and asks for a trigger exactly on a clean-to-dirty step |
| Computed.ComputedRef.Recomputed | packages/reactivity/src/computed.ts:28-30 | after a recompute the value is cached and `dirty` is false |
| Watch.Watcher.constructor | packages/reactivity/src/watch.ts:16 | both values start `undefined` |
| Watch.Watcher.Seed | packages/reactivity/src/watch.ts:35 | the first run's value becomes `oldValue`, and no callback is made |
| Watch.Watcher.Fired | packages/reactivity/src/watch.ts:23-30 | the callback receives (new value, previous `oldValue`), and `oldValue` then becomes the new value |
| Runtime.Runtime.constructor | packages/reactivity/src/effect.ts:22-26 | the program starts with an empty engine, heap and cache, no refs, computeds or watchers, and nothing run |
| Runtime.Runtime.Effect | packages/reactivity/src/effect.ts:28-62 | registers a fresh effect with its options; a lazy one does not run, and a non-lazy one starts a run of itself at once |
| Runtime.Runtime.NewEffectWith | packages/reactivity/src/effect.ts:49-53 | a fresh effect id gets the options and function, and nothing runs |
| Runtime.Runtime.RunEffect | packages/reactivity/src/effect.ts:31-47 | a run of the effect is logged first; after a normal return the stack and the active effect are what they were before |
| Runtime.Runtime.Begin | packages/reactivity/src/effect.ts:33-38 | the effect is pushed, made active and its run logged |
| Runtime.Runtime.End | packages/reactivity/src/effect.ts:42-44 | the stack loses its top and no run is logged |
| Runtime.Runtime.SetTracking | packages/reactivity/src/effect.ts:215-221 | `shouldTrack` becomes the requested value |
| Runtime.Runtime.EffectsFor | packages/reactivity/src/effect.ts:116-198 | the run-set of a request is `RunSet` for the target's kind, and it holds only registered effects |
| Runtime.Runtime.Trigger | packages/reactivity/src/effect.ts:116-211 | a trigger that returns normally found the run-set `RunSet` of the state before it, without a TypeError, and ran or handed to its scheduler every effect of that set (`Dispatched`); the stack is kept |
| Runtime.Runtime.TriggerEffects | packages/reactivity/src/effect.ts:201-211 | an empty set changes nothing; after a normal return every effect of the snapshot without a scheduler has had a run logged and every one with a user scheduler has been handed to it, and the stack is as before |
| Runtime.Runtime.RunOrSchedule | packages/reactivity/src/effect.ts:204-210 | an effect without a scheduler has a run of itself logged; one with a user scheduler is appended to the scheduled calls, and nothing runs |
| Runtime.Runtime.GetOp | packages/reactivity/src/baseHandlers.ts:60-101 | `v[key]` throws a TypeError on `undefined` and `null`; a primitive gives its own property; an ordinary object gives its own property and changes nothing; a ref answers `__v_isRef` with true and `value` with `_value`; a wrapper answers `__v_raw` with its target; through a wrapper around an ordinary object no subscription is removed, a successful read of a string key the trap does not answer itself leaves a tracking reader subscribed to `(target, key)` when the wrapper is not readonly, and a primitive property (other than `__v_raw`) changes no object |
| Runtime.Runtime.GetThroughTrap | packages/reactivity/src/baseHandlers.ts:60-101 | through the `get` trap, `__v_raw` gives the wrapper's target; no subscription is removed; a successful read of a string key the trap does not answer itself subscribes a tracking reader to `(target, key)` unless the wrapper is readonly; a primitive property other than `__v_raw` changes no object |
| Runtime.Runtime.SetThroughTrap | packages/reactivity/src/baseHandlers.ts:105-131 | the write through a mutable wrapper, with the trigger made only for the wrapper's own target, keeps every invariant |
| Runtime.Runtime.HasOp | packages/reactivity/src/baseHandlers.ts:135-138 | `key in v` keeps every invariant and the stack |
| Runtime.Runtime.DeleteOp | packages/reactivity/src/baseHandlers.ts:148-166 | `delete v[key]` keeps every invariant and the stack |
| Runtime.Runtime.OwnKeysOp | packages/reactivity/src/baseHandlers.ts:141-145 | the keys of an ordinary object, or of the ordinary target of a wrapper or of a `proxyRefs` wrapper, are exactly its own keys; through a wrapper that is not readonly it changes no object, removes no subscription and leaves a tracking reader subscribed to `ITERATE_KEY` of the target |
| Runtime.Runtime.ForInKeys | packages/reactivity/src/ref.ts:67 | `for ... in` over `undefined` or `null` visits nothing; over an object, a wrapper or a `proxyRefs` wrapper it visits exactly the enumerable own keys of the underlying object: no symbol, and no `length` of an array; over a wrapper that is not readonly it changes no object and leaves a tracking reader subscribed to `ITERATE_KEY` of the target, removing no subscription |
| Runtime.Runtime.LookUpMethod | packages/reactivity/src/baseHandlers.ts:76-78 | through a wrapper whose target is an array the instrumented method is used; on an array itself the original; on any other ordinary object, and on `undefined` or `null`, a TypeError |
| Runtime.Runtime.CallInstrumented | packages/reactivity/src/baseHandlers.ts:20-48 | a search method runs on `self` first and runs again, on the wrapper's raw target, exactly when that gave `false` or -1, returning the first result otherwise; a mutator returns what the original returned, with tracking enabled again |
| Runtime.Runtime.CallOriginal | packages/reactivity/src/baseHandlers.ts:22 | `Array.prototype[m]` on `self` keeps every invariant |
| Runtime.Runtime.IsRefOp | packages/reactivity/src/ref.ts:46-48 | `isRef` throws a TypeError for `undefined` and `null`; it is false for other primitives and true for a ref, changing nothing; on an ordinary object it is the truthiness of its own `__v_isRef` |
| Runtime.Runtime.UnRefOp | packages/reactivity/src/ref.ts:50-52 | `unRef` throws for `undefined` and `null`; a ref gives its `_value`; any other primitive and an ordinary non-ref object are returned as they are, changing nothing |
| Runtime.Runtime.NewRef | packages/reactivity/src/ref.ts:42-44 | `ref(v)` makes a fresh ref object whose raw value is `toRaw(v)`, and the other objects stay as they were |
| Runtime.Runtime.RefGet | packages/reactivity/src/ref.ts:18-22 | `r.value` returns the ref's `_value` |
| Runtime.Runtime.RefSet | packages/reactivity/src/ref.ts:24-33 | the raw value becomes `toRaw(x)`; a changing write hands back all of `dep`'s subscribers and an unchanged one none; existing objects are kept |
| Runtime.Runtime.GetFromRef | packages/reactivity/src/ref.ts:5-22 | a ref's `__v_isRef` is true and its `value` is `_value` |
| Runtime.Runtime.ToRef | packages/reactivity/src/ref.ts:54-62 | `toRef` of a ref returns it; of `undefined` or `null` throws; of another primitive gives a fresh ref holding it; of an ordinary object reads the key, returns a ref found there, throws for a nullish value, and wraps any other value in a fresh ref holding it |
| Runtime.Runtime.PropertyToRef | packages/reactivity/src/ref.ts:74-77 | `propertyToRef` reads the key of an ordinary object: a ref there is returned, a nullish value throws (F5), and any other value is wrapped in a fresh ref holding it |
| Runtime.Runtime.ToRefs | packages/reactivity/src/ref.ts:64-72 | `toRefs` gives a new ordinary object, holding only objects, whose keys are exactly the keys `for ... in` visits on the argument |
| Runtime.Runtime.ProxyRefs | packages/reactivity/src/ref.ts:80-100 | `proxyRefs` of a primitive throws; of an object it adds one fresh, uncached wrapper of that object and changes no other object |
| Runtime.Runtime.GetThroughRefs | packages/reactivity/src/ref.ts:82-86 | the `proxyRefs` read of an ordinary target: a nullish value at the key throws (F5), a ref gives its `_value`, and any other value is returned as it is |
| Runtime.Runtime.SetThroughRefs | packages/reactivity/src/ref.ts:87-98 | the `proxyRefs` write on an ordinary target: a nullish old value throws (F5); over a ref, a nullish new value throws and a primitive is written into the ref, the slot kept; over a primitive or a non-ref object, or a ref over a ref, the slot is replaced as the raw write does |
| Runtime.Runtime.SetRefOrSlot | packages/reactivity/src/ref.ts:89-97 | the `proxyRefs` write once the old value is read: nullish throws; a ref is written into or replaced as `SetThroughRefs` states; a primitive or non-ref object slot is replaced |
| Runtime.Runtime.SetRefOrReplace | packages/reactivity/src/ref.ts:92-97 | over a ref slot: a nullish new value throws, a primitive is written into the ref, and a new ref replaces the slot |
| Runtime.Runtime.SetOp | packages/reactivity/src/baseHandlers.ts:176-184 | `v[key] = x`: on an ordinary object, the raw write's outcome; through a readonly wrapper, success with nothing changed; on a ref's `value`, the raw value becomes `toRaw(x)` unless a subscriber ran, an unchanged value runs nothing, and a changed one runs or schedules every subscriber |
| Runtime.Runtime.Wrap | packages/reactivity/src/reactive.ts:21-49 | `reactive`, `shallowReactive`, `readonly` and `shallowReadonly` return the wrapper cached for the object whatever the mode; otherwise a new wrapper with the requested handlers; a primitive throws |
| Runtime.Runtime.NewComputed | packages/reactivity/src/computed.ts:3-41 | `computed(getter)` registers a lazy effect with the computed's scheduler, starts dirty, and runs nothing |
| Runtime.Runtime.ReadComputed | packages/reactivity/src/computed.ts:25-37 | a clean computed returns its cached value without running its getter; a dirty one logs a run of its getter; a successful read leaves it clean, returns the cache, and subscribes a tracking reader to its `value` |
| Runtime.Runtime.Refresh | packages/reactivity/src/computed.ts:27-36 | the recompute-when-dirty step: no run when clean, a logged run of the getter when dirty, a clean cache afterwards, and a tracking reader subscribed to `value` |
| Runtime.Runtime.MarkDirty | packages/reactivity/src/computed.ts:14-17 | the scheduler's flag step: dirty afterwards, and a trigger exactly on the clean-to-dirty step |
| Runtime.Runtime.CacheAndTrack | packages/reactivity/src/computed.ts:28-34 | the computed is clean with the new value cached, and a reader that is tracking is subscribed to its `value` |
| Runtime.Runtime.TrackComputed | packages/reactivity/src/computed.ts:34 | a reader that is tracking is subscribed to the computed's `value`; the active effect and the tracking flag are kept |
| Runtime.Runtime.ScheduleComputed | packages/reactivity/src/computed.ts:14-20 | a computed is never left clean by its scheduler unless it was already clean |
| Runtime.Runtime.NewWatch | packages/reactivity/src/watch.ts:3-36 | `watch` registers a fresh watcher with its callback and lazy effect, and logs a run of its getter; the seeding that follows makes no callback (`SeedWatcher`, `Watch.Watcher.Seed`) |
| Runtime.Runtime.RegisterWatcher | packages/reactivity/src/watch.ts:18-32 | the watcher starts with `oldValue` undefined and a lazy effect whose scheduler is the watcher's |
| Runtime.Runtime.SeedWatcher | packages/reactivity/src/watch.ts:35 | `oldValue` becomes the first value and no callback is recorded |
| Runtime.Runtime.ScheduleWatcher | packages/reactivity/src/watch.ts:23-30 | a successful scheduler run ends with a call of this watcher's callback |
| Runtime.Runtime.Fire | packages/reactivity/src/watch.ts:27-29 | records `cb(newValue, oldValue)` with the previous `oldValue`, and keeps the new value |
| Runtime.Runtime.Traverse | packages/reactivity/src/watch.ts:38-52 | primitives and objects already seen return the seen set unchanged; otherwise the object joins the seen set, which only grows; for a wrapper whose target holds only primitives and no own `__v_raw`, a tracking reader ends subscribed to `ITERATE_KEY` and to every key `for ... in` visits that the trap does not answer itself |
| Runtime.Runtime.VisitKeys | packages/reactivity/src/watch.ts:47-49 | over the names of such a wrapper's target, the loop changes no object, removes no subscription, and leaves a tracking reader subscribed to each visited key the trap does not answer itself |
| Runtime.Runtime.VisitKey | packages/reactivity/src/watch.ts:48 | reading one such name through the trap changes no object, removes no subscription, and subscribes a tracking reader to it |
| Renderer.GetSequence | packages/runtime-core/src/renderer.ts:596-657 | a non-empty list starting at index 0; for non-empty input it holds strictly increasing indices of `arr` with strictly increasing values; empty input gives `[0]`; `arr` is not modified; when `arr[0]` exceeds every later entry the result is `[0]` (F1) |
| Renderer.PatienceStepAsWritten | packages/runtime-core/src/renderer.ts:612-645 | one pass of the first loop keeps every entry the tail of a predecessor chain back to index 0 |
| Renderer.Search | packages/runtime-core/src/renderer.ts:628-637 | the binary search returns the first entry whose value is not below `arrI` |
| Renderer.WalkBack | packages/runtime-core/src/renderer.ts:649-655 | the result keeps its length, and each entry is the predecessor of the next one |
| Renderer.ChainsIncreasing | packages/runtime-core/src/renderer.ts:618-645 | linked predecessor chains form an increasing run |
| Renderer.LongerRunExample | packages/runtime-core/src/renderer.ts:640-645 | `[5, 1, 2, 3]` has an increasing run of length 3 (F1) |
| Renderer.GetSequenceLongest | packages/runtime-core/src/renderer.ts:596-657 | the corrected `getSequence` returns an increasing run at least as long as every candidate run (F1) |
| Renderer.TailsBoundLength | packages/runtime-core/src/renderer.ts:610-647 | no candidate run is longer than the patience-sorting result |
| Renderer.BuildKeyIndex | packages/runtime-core/src/renderer.ts:512-516 | a key is present if and only if some new child in range carries it, and then it maps to the last such position |
| Renderer.PatchKeyedMiddle | packages/runtime-core/src/renderer.ts:499-551 | a negative count fails with a RangeError; otherwise every old child is visited once, in order, and patched exactly when fewer than `count + 1` children are patched and its key is among the new ones; `source` holds the last old index patched against each new child, or -1; `moved` holds if and only if the matched new indices are out of order |
| Renderer.VisitOld | packages/runtime-core/src/renderer.ts:520-550 | one visit of an old child extends the recorded steps by one step |
| Renderer.OutOfOrderSnoc | packages/runtime-core/src/renderer.ts:536-540 | with `pos` the running maximum, a new index makes the list out of order if and only if it was already, or the index is below `pos` |
| Renderer.DistinctKeysExact | packages/runtime-core/src/renderer.ts:499-551 | with distinct keys, an old child is patched if and only if its key is among the new ones, and `source[q]` is the old index carrying new child `j + q`'s key, or -1 if there is none |
| Renderer.MatchedDistinct | packages/runtime-core/src/renderer.ts:520-550 | with distinct old keys, the patched new positions are distinct and lie in range |
| Renderer.HasPropsChanged | packages/runtime-core/src/renderer.ts:363-378 | a TypeError exactly when either vnode has no props (`Object.keys(undefined)`); otherwise reports a change if and only if the key counts differ or some key of `next` holds a value not `===` to `prev`'s (F7) |
| Renderer.HasPropsChangedDefaulted | packages/runtime-core/src/renderer.ts:363-378 | the corrected test never throws: missing props count as the empty object, so two prop-less vnodes are unchanged and a prop-less one against props changes exactly when those props are non-empty (F7) |
| Renderer.NaNPropChanged | packages/runtime-core/src/renderer.ts:374 | a `NaN` prop always reports a change |
| Renderer.SamePropsUnchanged | packages/runtime-core/src/renderer.ts:363-378 | objects with the same entries, none `NaN`, report no change |
| Renderer.UnchangedSameProps | packages/runtime-core/src/renderer.ts:363-378 | with no `undefined` or `NaN` values in `next`, no reported change means the same entries |
| Renderer.ResolveProps | packages/runtime-core/src/renderer.ts:321-340 | with declared options, every entry lands in `props` exactly when its key is declared or starts with `on` and in `attrs` otherwise; without options, any key throws a TypeError (F2) |
| Renderer.RoutePartition | packages/runtime-core/src/renderer.ts:326-336 | every entry lands in exactly one of `props` and `attrs`, with its value |
| Renderer.RouteDistinct | packages/runtime-core/src/renderer.ts:326-336 | neither part repeats a name |
| Renderer.ResolvePropsDefaulted | packages/runtime-core/src/renderer.ts:321-340 | the corrected split never throws: it partitions the entries, a missing option declaring nothing (F2) |
| NormalizeProps.NormalizeClass | packages/shared/src/normalizeProps.ts:1-22 | the result equals `Normalized(value)` |
| NormalizeProps.NormalizeList | packages/shared/src/normalizeProps.ts:6-12 | the array loop and the final trim give `Normalized` of the array |
| NormalizeProps.NormalizeDict | packages/shared/src/normalizeProps.ts:13-18 | the object loop and the final trim give the truthy keys, space-separated |
| NormalizeProps.StringInput | packages/shared/src/normalizeProps.ts:4-5 | a string gives that string trimmed |
| NormalizeProps.OtherInput | packages/shared/src/normalizeProps.ts:2-3 | every non-string, non-object input gives the empty string |
| NormalizeProps.NormalizedIsTrimmed | packages/shared/src/normalizeProps.ts:21 | the result never has leading or trailing whitespace |
| NormalizeProps.SpacedIsJoinPlusSpace | packages/shared/src/normalizeProps.ts:6-12 | the accumulated string is the elements joined by single spaces, plus a final space |
| NormalizeProps.TrimSpaced | packages/shared/src/normalizeProps.ts:21 | trimming after the final appended space gives the trimmed single-space join |

## Left out

- Prototypes, accessor properties and `setPrototypeOf` are left out, because the heap holds only own data properties. Reads through a wrapper with the wrapper as an accessor's `this` (`p.foo++` then `p.foo` giving 2) are therefore outside the model.
- `shift`, `unshift` and `splice` have instrumentations that wrap the originals in pause and enable, like `push` and `pop`. The originals are not modelled; calling them ends the run as unsupported.
- The `fromIndex` argument of `includes`, `indexOf` and `lastIndexOf` is not modelled.
- The Map methods and `collectionHandlers.ts` are not modelled. The kind tag `MapObject` only selects `trigger`'s Map branches.
- JavaScript insertion order is not modelled. Subscriber sets and key sets are sets, so `triggerEffects` and `for ... in` visit them in an arbitrary order. A `for ... in` also does not skip keys deleted during the loop.
- Numbers are NaN or integers: no fractions and no infinities. `Number` of a string therefore gives NaN for a fraction such as `"1.5"` and for `"Infinity"`, where JavaScript gives a number. For such a name key `BaseHandlers.Classify` and `Values.KeyAtLeast` then differ from JavaScript: `arr["1.5"] = x` is an ADD, and a `length` write passes over the subscribers of `"1.5"`. Negative zero is not a separate value: `"-0"` reads as 0, which is how JavaScript's `-0` behaves in every comparison the core makes.
- Converting an object to a number (`ToPrimitive` through `valueOf` or `toString`, which come from prototypes) is not modelled: `Number` of an object gives NaN, so `arr.length = [2]` throws a RangeError here, where JavaScript truncates the array to length 2.
- `toString` of an object used as a key is not modelled.
- The renderer's plain objects are modelled without their prototype as well. `keyIndex` in the keyed diff is a map and a component's `props` option a set, while the source uses `{}` and `key in options`, which also see `Object.prototype` names: a child key or a prop named `constructor` is found in the source even when no child or option declares it.
- `watch` options (`immediate`, `flush`) and the job queue are not modelled: the shown `watch` takes no options.
- User schedulers and watch callbacks are user code: their calls are recorded, not run.
- Console warnings are not modelled.
- `computed`, `watch` and `ref` are created only at the top level of the program, and `effect` only at the top level or as a nested effect without options.
- Wrapping a wrapper again (`reactive(reactive(x))`) is not modelled.
- On-stack depth is bounded by `fuel`. Running out stands for a stack overflow, so non-termination shows up as `OutOfFuel`, not as a run that never ends.
- The host operations of `renderer.ts` are not modelled: mounting, patching, unmounting and moving nodes. `patch` and `unmount` are recorded as `DiffStep`s in the keyed diff.
- `toRaw` and `toReactive` are imported by `ref.ts` but not defined in the shown `reactive.ts`. They are modelled from their uses.
- Effect.Engine.RunReadingTracked: does not state that the effect ends in no set other than the one it read, only that it is subscribed to it; the stronger frame costs more than the verifier's resource bound allows.
- Runtime.Runtime.Effect: states that a non-lazy effect's first logged run is its own, not that it runs exactly once, because its body may trigger further runs.
- Runtime.Runtime.ScheduleComputed: states the computed is not made clean unless it was clean, not that it ends dirty, because the trigger it makes can run an effect that reads and recomputes it.
- Runtime.Runtime.ScheduleWatcher: states that the last recorded callback belongs to this watcher, not its arguments, because the getter's run may record other callbacks first.
- Runtime.Runtime.ReadComputed: states no rerun for one read of a clean computed; "two reads run the getter once" follows by composing two calls and is not stated as a lemma.
- Runtime.Runtime.NewComputed: does not state that the new object's address was unused before, only that the computed behind it is a new one.
- Runtime.Runtime.NewRef: does not state that the new object's address was unused before, only that the ref behind it is a new one.
- Runtime.Runtime.TriggerEffects: states the run or hand-off of effects without a scheduler or with a user scheduler, not the steps of a computed's or a watcher's scheduler, which `ScheduleComputed` and `ScheduleWatcher` state; nor the order of runs, because the set has none here.
- Runtime.Runtime.Trigger: like `TriggerEffects`, leaves the steps of computed and watcher schedulers to `ScheduleComputed` and `ScheduleWatcher`.
- Runtime.Runtime.RunOrSchedule: for a computed's or a watcher's scheduler states only the invariants and the stack; those steps are stated by `ScheduleComputed` and `ScheduleWatcher`.
- Runtime.Runtime.SetThroughTrap: states only that the invariants and the stack are kept; the trap's outcome is stated by `BaseHandlers.Set` and `SetterOutcome`.
- Runtime.Runtime.HasOp: states only that the invariants and the stack are kept; the trap's answer is stated by `BaseHandlers.Has`.
- Runtime.Runtime.DeleteOp: states only that the invariants and the stack are kept; the trap's outcome is stated by `BaseHandlers.DeleteProperty`.
- Runtime.Runtime.OwnKeysOp: states the keys only when the object, or the target behind a wrapper, is an ordinary object.
- Runtime.Runtime.CallInstrumented: states that a mutator returns with tracking enabled, not that tracking was paused while the original ran; an effect run inside that pause is covered by `Effect.Engine.RunReadingPaused`.
- Runtime.Runtime.CallOriginal: states only that the invariants and the stack are kept, not the results of the built-in array methods.
- Runtime.Runtime.GetOp: for a reactive wrapper states the `__v_raw` answer, the subscription a tracked read makes and that a primitive property changes no object, not the value read for other keys; that value, and the wrapping of a nested object, are stated by `BaseHandlers.Get`.
- Runtime.Runtime.GetThroughRefs: states the result only for an ordinary target; a `proxyRefs` of a wrapper reads through that wrapper's trap.
- Runtime.Runtime.SetThroughRefs: states the outcome only for an ordinary target; a primitive written over a ref is stated only when the ref has no subscribers, because those run user code that may change the slot; an object written over a ref is not stated.
- Runtime.Runtime.UnRefOp: the result for a wrapper or a computed object, whose `__v_isRef` read goes through a trap or a getter, is not stated.
- Runtime.Runtime.ToRef: for a wrapper argument the result is not stated, because the key is read through its trap.
- Runtime.Runtime.ToRefs: states the keys of the result and that each holds an object, not which ref each key holds; `ToRef` states that for one key.
- Runtime.Runtime.ProxyRefs: states the new wrapper and its failure case; its traps are stated by `GetThroughRefs` and `SetThroughRefs`.
- Whole-program properties of `watch` are not stated as lemmas: that only the keys a getter reads cause callbacks, and that a later write to a traversed key of an object source runs the watcher's scheduler. Per call, `Traverse` states the subscriptions a flat source leaves, and `Effect.RunSetPlainSet` and the other `RunSet` lemmas state which subscribers a write runs.
- Runtime.Runtime.Traverse: states the subscriptions only for a wrapper whose target holds primitives alone and no own `__v_raw`. Below a nested object the reads can reach a computed getter or a ref and so run user code, which can re-run the watching effect and so clear its subscriptions; no subscription is stated there. Termination on cycles is not stated either: an object joins `seen` before its keys are read and a seen object returns at once, but the recursion is bounded by `fuel`, not by the number of objects.
- Operations in `runtime.dfy` that only thread state (`Eval`, `Exec` and their helpers) state that they keep the invariants and the stack, not what user code computes.

## Findings

The rows below are F1 to F7, in order; the "## Model" table refers to them by these labels.

| source | as written | input that shows it | evidently intended | confidence | as-written member | corrected member |
|---|---|---|---|---|---|---|
| packages/runtime-core/src/renderer.ts:640-645 | `result[u] = i` sits inside `if (u > 0)`, so slot 0 is never replaced | `getSequence([5, 1, 2, 3])` gives `[0]`, while `[1, 2, 3]` is an increasing run | replace `result[u]` whenever `arrI < arr[result[u]]`, so the result is a longest increasing run | not executed | Renderer.GetSequence | Renderer.GetSequenceLongest |
| packages/runtime-core/src/renderer.ts:329 | `key in options` with `options` undefined when the component declares no `props` | a component without a `props` option receiving `{ onClick: f }` throws a TypeError | a missing option declares nothing | not executed | Renderer.ResolveProps | Renderer.ResolvePropsDefaulted |
| packages/reactivity/src/effect.ts:155-156 | every key of the target's map is compared by `key >= Number(newVal)`, including the `ITERATE_KEY` symbol | an effect runs `for (k in arr)` on a reactive array, then `arr.length = 0` throws a TypeError | symbol keys are skipped in the length comparison | not executed | Effect.ForInThenLengthWriteThrows | Effect.SkippingSymbolsAgrees |
| packages/reactivity/src/ref.ts:31 | `triggerEffects(this.dep)` runs every subscriber, the active effect included | `effect(() => { r.value++ })` re-runs itself from within itself until the stack overflows | exclude the active effect, as `trigger` does | not executed | Ref.RefImpl.SetValue | Ref.GuardedRefRunSetAgrees |
| packages/reactivity/src/ref.ts:47 | `!!ref.__v_isRef` reads a property of its argument | `proxyRefs({}).foo`, or `unRef(undefined)`, throws a TypeError | `!!(ref && ref.__v_isRef)` | not executed | Runtime.Runtime.GetThroughRefs | Ref.IsRefGuardedAgrees |
| packages/reactivity/src/baseHandlers.ts:41-45 | an effect triggered while `push` has tracking paused runs after its `cleanup` with tracking off | effect B reads `arr.length`; effect A calls `arr.push(1)`: B runs inside the push, reads the length untracked, and a later `arr.push(2)` no longer re-runs B | `effectFn` enables tracking while it runs and restores the previous flag afterwards | not executed | Effect.Engine.RunReadingPaused | Effect.Engine.RunReadingTracked |
| packages/runtime-core/src/renderer.ts:364-365 | `Object.keys(nextProps)` and `Object.keys(prevProps)` with no guard, called from `patchComponent` (renderer.ts:348) | patching a component vnode created without props (`createVNode(Comp)`, as the async-component wrapper does) throws a TypeError | vnodes without props count as having none | not executed | Renderer.HasPropsChanged | Renderer.HasPropsChangedDefaulted |
