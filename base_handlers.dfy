/**
 * `baseHandlers.ts`: the traps of the four handler objects, as operations on the raw object a
 * wrapper stands for. A trap's writes to the raw object go to the store; its reads are recorded
 * with the engine; a write that should re-run effects returns a trigger request, which the caller
 * dispatches (that is where user code runs).
 */
module BaseHandlers {
  import opened Wrappers
  import opened Values
  import opened Heap
  import opened Reactive
  import opened Effect

  /** The array methods `createArrayInstrumentations` replaces. */
  datatype ArrayMethod = Includes | IndexOf | LastIndexOf | Push | Pop | Shift | Unshift | Splice

  function MethodName(m: ArrayMethod): string {
    match m
    case Includes => "includes"
    case IndexOf => "indexOf"
    case LastIndexOf => "lastIndexOf"
    case Push => "push"
    case Pop => "pop"
    case Shift => "shift"
    case Unshift => "unshift"
    case Splice => "splice"
  }

  /** `arrayInstrumentations.hasOwnProperty(key)`, with the method it names. */
  function InstrumentedMethod(key: Key): (r: Option<ArrayMethod>)
    ensures forall m :: key == Name(MethodName(m)) ==> r == Some(m)
    ensures r.Some? ==> key == Name(MethodName(r.value))
  {
    if key == Name("includes") then Some(Includes)
    else if key == Name("indexOf") then Some(IndexOf)
    else if key == Name("lastIndexOf") then Some(LastIndexOf)
    else if key == Name("push") then Some(Push)
    else if key == Name("pop") then Some(Pop)
    else if key == Name("shift") then Some(Shift)
    else if key == Name("unshift") then Some(Unshift)
    else if key == Name("splice") then Some(Splice)
    else None
  }

  /** The search methods compare and retry; the others change the array with tracking paused. */
  predicate IsSearch(m: ArrayMethod) {
    m == Includes || m == IndexOf || m == LastIndexOf
  }

  /** The handlers that nested objects read through a deep wrapper are wrapped with. */
  function DeepHandlers(h: Handlers): Handlers {
    if IsReadonlyHandlers(h) then ReadonlyHandlers else MutableHandlers
  }

  /** The reserved-key branches of `get`: the raw target, the readonly flag and its negation. */
  function ReservedGet(target: Addr, h: Handlers, key: Key): Option<Value> {
    if key == RawFlag then Some(Obj(target))
    else if key == IsReadonlyFlag then Some(Bool(IsReadonlyHandlers(h)))
    else if key == IsReactiveFlag then Some(Bool(!IsReadonlyHandlers(h)))
    else None
  }

  /**
   * Through any wrapper, `isReactive` is the negation of `isReadonly`, `__v_raw` is the raw target,
   * and no other key is reserved.
   */
  lemma ReactiveIsNotReadonly(target: Addr, h: Handlers, key: Key)
    ensures ReservedGet(target, h, IsReactiveFlag).value == Bool(!ReservedGet(target, h, IsReadonlyFlag).value.b)
    ensures ReservedGet(target, h, RawFlag) == Some(Obj(target))
    ensures ReservedGet(target, h, IsReadonlyFlag) == Some(Bool(h == ReadonlyHandlers || h == ShallowReadonlyHandlers))
    ensures ReservedGet(target, h, key).Some? <==> key in {RawFlag, IsReadonlyFlag, IsReactiveFlag}
  {
  }

  /** Whether a `get` through handlers `h` records the read: not readonly and not a symbol key. */
  predicate TracksRead(h: Handlers, key: Key) {
    !IsReadonlyHandlers(h) && !key.SymKey?
  }

  /** What a `get` trap returns: a value, or one of the instrumented array methods. */
  datatype GetResult = Read(v: Value) | ArrayMethodRef(m: ArrayMethod)

  /** The objects that existed before are unchanged; new ones may have been added. */
  twostate predicate StoreGrows(store: Store)
    reads store
  {
    old(store.cells).Keys <= store.cells.Keys && old(store.next) <= store.next
    && forall a :: a in old(store.cells) ==> store.cells[a] == old(store.cells[a])
  }

  /**
   * The `get` trap of handlers `h` on the raw object `target`. Reserved keys and the instrumented
   * methods of an array are answered without tracking. Any other key reads the raw property,
   * records the read unless the wrapper is readonly or the key a symbol, and, unless the wrapper is
   * shallow, returns a nested object wrapped: `readonly` for readonly wrappers and `reactive`
   * otherwise, through the shared cache (so an object already wrapped keeps its first wrapper).
   */
  method Get(engine: Engine, store: Store, cache: ProxyCache, target: Addr, h: Handlers, key: Key)
    returns (r: GetResult)
    requires engine.Valid() && store.Valid() && cache.Valid(store)
    requires target in store.cells && store.cells[target].Plain?
    modifies engine, store, cache
    ensures engine.Valid() && store.Valid() && cache.Valid(store)
    ensures StoreGrows(store) && engine.KeepsEffects() && engine.KeepsSubscriptions()
    ensures ReservedGet(target, h, key).Some? ==>
      r == Read(ReservedGet(target, h, key).value) && engine.Unchanged()
      && store.cells == old(store.cells) && cache.reactiveMap == old(cache.reactiveMap)
    ensures ReservedGet(target, h, key).None? && store.cells[target].kind == ArrayObject
            && InstrumentedMethod(key).Some? ==>
      r == ArrayMethodRef(InstrumentedMethod(key).value) && engine.Unchanged()
      && store.cells == old(store.cells) && cache.reactiveMap == old(cache.reactiveMap)
    ensures ReservedGet(target, h, key).None?
            && !(store.cells[target].kind == ArrayObject && InstrumentedMethod(key).Some?) ==>
      var res := RawGet(old(store.cells[target].props), key);
      (if TracksRead(h, key) then engine.Tracked(target, key) else engine.Unchanged())
      && (TracksRead(h, key) && old(engine.IsTracking()) ==> engine.Subscribed(old(engine.activeEffect.value), target, key))
      && ((IsShallowHandlers(h) || !IsObject(res)) ==>
            r == Read(res) && store.cells == old(store.cells) && cache.reactiveMap == old(cache.reactiveMap))
      && (!IsShallowHandlers(h) && IsObject(res) ==>
            r.Read? && r.v.Obj? && res.addr in cache.reactiveMap && cache.reactiveMap[res.addr] == r.v.addr
            && (res.addr in old(cache.reactiveMap) ==>
                  r.v.addr == old(cache.reactiveMap[res.addr]) && store.cells == old(store.cells))
            && (res.addr !in old(cache.reactiveMap) ==>
                  store.cells == old(store.cells)[r.v.addr := Proxy(res.addr, DeepHandlers(h))]))
  {
    var reserved := ReservedGet(target, h, key);
    if reserved.Some? {
      return Read(reserved.value);
    }
    var cell := store.cells[target];
    if cell.kind == ArrayObject && InstrumentedMethod(key).Some? {
      return ArrayMethodRef(InstrumentedMethod(key).value);
    }
    var res := RawGet(cell.props, key);
    if TracksRead(h, key) {
      engine.Track(target, key);
    }
    if IsShallowHandlers(h) || !IsObject(res) {
      return Read(res);
    }
    var p := cache.CreateReactiveObject(store, res.addr, DeepHandlers(h));
    r := Read(Obj(p));
  }

  /**
   * The operation kind `set` reports: on an array, `Number(key) < target.length` gives SET and
   * anything else ADD (so a symbol key throws, and `length` itself, whose number is NaN, is an ADD);
   * on any other object an own key gives SET and a new one ADD.
   */
  function Classify(kind: ObjKind, props: Props, key: Key): Result<TriggerType, JsError> {
    if kind == ArrayObject then
      if key.SymKey? then Failure(TypeError)
      else if NumberLess(KeyToNumber(key), Int(ArrayLength(props))) then Success(SET)
      else Success(ADD)
    else if HasOwn(props, key) then Success(SET)
    else Success(ADD)
  }

  /** An array write is a SET below the length and an ADD at or above it. */
  lemma ClassifyArrayIndex(props: Props, i: nat)
    ensures Classify(ArrayObject, props, Idx(i)) == if i < ArrayLength(props) then Success(SET) else Success(ADD)
  {
  }

  /** A negative number as a key of an array, such as `arr[-1] = x`, is below every length, so a SET. */
  lemma ClassifyNegativeName(props: Props, n: int)
    requires n < 0
    ensures Classify(ArrayObject, props, ToPropertyKey(Num(Int(n))).value) == Success(SET)
  {
    NumberKeyRoundTrip(n);
  }

  /** Writing an array's `length` is always reported as an ADD, and a symbol key on an array throws. */
  lemma ClassifyArrayOddKeys(props: Props, id: nat)
    ensures Classify(ArrayObject, props, LengthKey) == Success(ADD)
    ensures Classify(ArrayObject, props, SymKey(id)) == Failure(TypeError)
  {
    assert Trim("length") == "length" by {
      assert !IsJsWhitespace('l') && !IsJsWhitespace('h');
    }
    assert !IsDigit("length"[0]);
  }

  /** Outside arrays a write is a SET exactly when the key is already an own property. */
  lemma ClassifyObject(kind: ObjKind, props: Props, key: Key)
    requires kind != ArrayObject
    ensures Classify(kind, props, key) == Success(SET) <==> key in props
    ensures Classify(kind, props, key) == Success(ADD) <==> key !in props
  {
  }

  /** A `trigger(target, key, type, newVal)` call a trap asks its caller to make. */
  datatype TriggerRequest = TriggerRequest(target: Addr, key: Key, ty: Option<TriggerType>, newVal: Value)

  /** The raw object's new properties after a trap, and the trigger it asks for. */
  datatype TrapOutcome = TrapOutcome(props: Props, request: Option<TriggerRequest>)

  /** `isReadonly(target)` on the raw object: its own `__v_isReadonly` property, read raw. */
  predicate RawReadonlyFlag(props: Props) {
    Truthy(RawGet(props, IsReadonlyFlag))
  }

  /**
   * The effect of the mutable `set` trap on the raw object `target`: it returns at once when the raw
   * object carries a truthy `__v_isReadonly`; otherwise it classifies the write (which throws for a
   * symbol key on an array), performs it (which throws for an invalid array length) and asks for a
   * trigger only when the receiver's raw object is `target` and the value changed, NaN being equal
   * to NaN.
   */
  function SetterOutcome(target: Addr, kind: ObjKind, props: Props, key: Key, value: Value, receiverRaw: Value)
    : Result<TrapOutcome, JsError>
  {
    var oldValue := RawGet(props, key);
    if RawReadonlyFlag(props) then Success(TrapOutcome(props, None))
    else
      var ty :- Classify(kind, props, key);
      var written :- RawSet(kind, props, key, value);
      Success(TrapOutcome(written,
        if receiverRaw == Obj(target) && HasChanged(oldValue, value)
        then Some(TriggerRequest(target, key, Some(ty), value)) else None))
  }

  /** Writing the value a key already holds (NaN over NaN included) never triggers. */
  lemma UnchangedWriteIsSilent(target: Addr, kind: ObjKind, props: Props, key: Key, value: Value, receiverRaw: Value)
    requires RawGet(props, key) == value
    ensures var o := SetterOutcome(target, kind, props, key, value, receiverRaw);
            o.Success? ==> o.value.request == None
  {
  }

  /** The NaN case of the change test, as the setter's own comparison states it. */
  lemma NaNOverNaNIsSilent(target: Addr, props: Props, key: Key)
    requires key in props && props[key] == Num(NaN) && !RawReadonlyFlag(props)
    ensures SetterOutcome(target, PlainObject, props, key, Num(NaN), Obj(target)) == Success(TrapOutcome(props, None))
  {
    assert props[key := Num(NaN)] == props;
  }

  /** A write whose receiver stands for another object (one that inherits from the wrapper) stores but never triggers. */
  lemma ForeignReceiverIsSilent(target: Addr, kind: ObjKind, props: Props, key: Key, value: Value, receiverRaw: Value)
    requires receiverRaw != Obj(target)
    ensures var o := SetterOutcome(target, kind, props, key, value, receiverRaw);
            o.Success? ==> o.value.request == None
  {
  }

  /**
   * A successful changing write through the wrapper itself stores the value and triggers with the
   * write's classification: SET for an own key of an object or an index below an array's length,
   * ADD otherwise.
   */
  lemma ChangingWriteTriggers(target: Addr, kind: ObjKind, props: Props, key: Key, value: Value)
    requires !RawReadonlyFlag(props) && RawGet(props, key) != value
    requires !(kind == ArrayObject && (key.SymKey? || key == LengthKey))
    ensures var o := SetterOutcome(target, kind, props, key, value, Obj(target));
            o.Success? && RawGet(o.value.props, key) == value
            && o.value.request == Some(TriggerRequest(target, key, Some(Classify(kind, props, key).value), value))
            && (kind != ArrayObject ==> o.value.request.value.ty == Some(if key in props then SET else ADD))
  {
    RawSetStores(kind, props, key, value);
  }

  /** The readonly flag check on the raw object turns the write into a no-op. */
  lemma RawReadonlyFlagSkips(target: Addr, kind: ObjKind, props: Props, key: Key, value: Value, receiverRaw: Value)
    requires RawReadonlyFlag(props)
    ensures SetterOutcome(target, kind, props, key, value, receiverRaw) == Success(TrapOutcome(props, None))
  {
  }

  /**
   * The `set` trap shared by mutable and shallow reactive wrappers, on the raw object `target`.
   * The trap itself always reports success; the object's new state and the trigger it asks for are
   * `SetterOutcome`.
   */
  method Set(store: Store, target: Addr, key: Key, value: Value, receiverRaw: Value)
    returns (r: Result<Option<TriggerRequest>, JsError>)
    requires store.Valid() && target in store.cells && store.cells[target].Plain?
    modifies store
    ensures store.Valid() && store.next == old(store.next)
    ensures var c := old(store.cells[target]);
      var o := SetterOutcome(target, c.kind, c.props, key, value, receiverRaw);
      (o.Failure? ==> r == Failure(o.error) && store.cells == old(store.cells))
      && (o.Success? ==> r == Success(o.value.request)
                         && store.cells == old(store.cells)[target := Plain(c.kind, o.value.props)])
  {
    var c := store.cells[target];
    var oldValue := RawGet(c.props, key);
    if RawReadonlyFlag(c.props) {
      assert store.cells[target := Plain(c.kind, c.props)] == store.cells;
      return Success(None);
    }
    var ty := Classify(c.kind, c.props, key);
    if ty.Failure? {
      return Failure(ty.error);
    }
    var written := RawSet(c.kind, c.props, key, value);
    if written.Failure? {
      return Failure(written.error);
    }
    store.SetProps(target, written.value);
    if receiverRaw == Obj(target) && HasChanged(oldValue, value) {
      r := Success(Some(TriggerRequest(target, key, Some(ty.value), value)));
    } else {
      r := Success(None);
    }
  }

  /**
   * The effect of the `deleteProperty` trap: it returns `true` at once when the raw object carries a
   * truthy `__v_isReadonly`; otherwise it deletes, and triggers DELETE only when the key was an own
   * property and the delete succeeded.
   */
  function DeleteOutcome(target: Addr, kind: ObjKind, props: Props, key: Key): (TrapOutcome, bool) {
    if RawReadonlyFlag(props) then (TrapOutcome(props, None), true)
    else
      var hadKey := HasOwn(props, key);
      var (rest, ok) := RawDelete(kind, props, key);
      (TrapOutcome(rest, if hadKey && ok then Some(TriggerRequest(target, key, Some(DELETE), Undefined)) else None), ok)
  }

  /**
   * A delete triggers exactly when it removes an own property; the key is gone afterwards unless the
   * delete was refused (an array's `length`) or skipped by the raw readonly flag.
   */
  lemma DeleteTriggersOnRemoval(target: Addr, kind: ObjKind, props: Props, key: Key)
    ensures var (o, ok) := DeleteOutcome(target, kind, props, key);
            (o.request.Some? <==> !RawReadonlyFlag(props) && key in props && !(kind == ArrayObject && key == LengthKey))
            && (o.request.Some? ==> o.request.value == TriggerRequest(target, key, Some(DELETE), Undefined))
            && (!RawReadonlyFlag(props) && ok ==> key !in o.props && forall k :: k != key ==> (k in o.props <==> k in props))
            && (!ok ==> o.props == props)
  {
  }

  /** The `deleteProperty` trap of mutable and shallow reactive wrappers; returns the trap's result. */
  method DeleteProperty(store: Store, target: Addr, key: Key) returns (ok: bool, request: Option<TriggerRequest>)
    requires store.Valid() && target in store.cells && store.cells[target].Plain?
    modifies store
    ensures store.Valid() && store.next == old(store.next)
    ensures var c := old(store.cells[target]);
      var (o, res) := DeleteOutcome(target, c.kind, c.props, key);
      ok == res && request == o.request && store.cells == old(store.cells)[target := Plain(c.kind, o.props)]
  {
    var c := store.cells[target];
    if RawReadonlyFlag(c.props) {
      assert store.cells[target := Plain(c.kind, c.props)] == store.cells;
      return true, None;
    }
    var hadKey := HasOwn(c.props, key);
    var (rest, res) := RawDelete(c.kind, c.props, key);
    store.SetProps(target, rest);
    ok := res;
    request := if hadKey && res then Some(TriggerRequest(target, key, Some(DELETE), Undefined)) else None;
  }

  /** The `has` trap of mutable and shallow reactive wrappers: records the read (symbol keys too), then answers. */
  method Has(engine: Engine, store: Store, target: Addr, key: Key) returns (r: bool)
    requires engine.Valid() && target in store.cells && store.cells[target].Plain?
    modifies engine
    ensures engine.Valid() && engine.Tracked(target, key) && engine.KeepsEffects()
    ensures r == HasOwn(store.cells[target].props, key)
  {
    engine.Track(target, key);
    r := HasOwn(store.cells[target].props, key);
  }

  /** The `ownKeys` trap of mutable and shallow reactive wrappers: subscribes to `ITERATE_KEY`, arrays included. */
  method OwnKeysTrap(engine: Engine, store: Store, target: Addr) returns (r: set<Key>)
    requires engine.Valid() && target in store.cells && store.cells[target].Plain?
    modifies engine
    ensures engine.Valid() && engine.Tracked(target, IterateKey) && engine.KeepsEffects() && engine.KeepsSubscriptions()
    ensures old(engine.IsTracking()) ==> engine.Subscribed(old(engine.activeEffect.value), target, IterateKey)
    ensures r == OwnKeys(store.cells[target].props)
  {
    engine.Track(target, IterateKey);
    r := OwnKeys(store.cells[target].props);
  }
}
