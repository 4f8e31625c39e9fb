/**
 * `reactive.ts`: the operation kinds a write reports, and the one cache from raw objects to
 * their wrappers that all four wrapper constructors share.
 */
module Reactive {
  import opened Wrappers
  import opened Values
  import opened Heap

  /** `TriggerType`. */
  datatype TriggerType = SET | ADD | DELETE

  /**
   * `toRaw`, which the shown `reactive.ts` does not define: the raw object behind a wrapper, unwrapped
   * all the way down; anything else is returned as it is.
   */
  function ToRaw(cells: map<Addr, Cell>, v: Value): (r: Value)
    ensures IsObject(r) <==> IsObject(v)
    ensures v.Obj? && v.addr in cells && cells[v.addr].Proxy? && cells[v.addr].target < v.addr
            ==> r == ToRaw(cells, Obj(cells[v.addr].target))
    ensures !(v.Obj? && v.addr in cells && cells[v.addr].Proxy?) ==> r == v
    decreases if v.Obj? then v.addr else 0
  {
    if v.Obj? && v.addr in cells && cells[v.addr].Proxy? && cells[v.addr].target < v.addr
    then ToRaw(cells, Obj(cells[v.addr].target))
    else if v.Obj? && v.addr in cells && cells[v.addr].Proxy? then Obj(cells[v.addr].target)
    else v
  }

  /** The module-level `reactiveMap`: raw object to the wrapper created for it first. */
  class ProxyCache {
    var reactiveMap: map<Addr, Addr>

    /** Every cached wrapper is a wrapper of the object it is cached under. */
    ghost predicate Valid(store: Store)
      reads this, store
    {
      forall t :: t in reactiveMap ==>
        reactiveMap[t] in store.cells && store.cells[reactiveMap[t]].Proxy? && store.cells[reactiveMap[t]].target == t
    }

    constructor ()
      ensures reactiveMap == map[]
    {
      reactiveMap := map[];
    }

    /**
     * `createReactiveObject`, which `reactive`, `shallowReactive`, `readonly` and `shallowReadonly`
     * call with their handlers: a cache hit returns the wrapper already made for `target`, whatever
     * handlers it was made with; a miss makes a new wrapper and caches it.
     */
    method CreateReactiveObject(store: Store, target: Addr, handlers: Handlers) returns (proxy: Addr)
      requires store.Valid() && Valid(store)
      modifies this, store
      ensures store.Valid() && Valid(store)
      ensures target in old(reactiveMap) ==>
        proxy == old(reactiveMap[target]) && reactiveMap == old(reactiveMap)
        && store.cells == old(store.cells) && store.next == old(store.next)
      ensures target !in old(reactiveMap) ==>
        proxy == old(store.next) && proxy !in old(store.cells)
        && store.cells == old(store.cells)[proxy := Proxy(target, handlers)] && store.next == proxy + 1
        && reactiveMap == old(reactiveMap)[target := proxy]
      ensures proxy in store.cells && store.cells[proxy].Proxy? && store.cells[proxy].target == target
    {
      if target in reactiveMap {
        proxy := reactiveMap[target];
        return;
      }
      proxy := store.Alloc(Proxy(target, handlers));
      reactiveMap := reactiveMap[target := proxy];
    }

    /**
     * `toReactive`, which the shown `reactive.ts` does not define: `reactive(v)` for an object,
     * the value itself otherwise.
     */
    method ToReactive(store: Store, v: Value) returns (r: Value)
      requires store.Valid() && Valid(store)
      modifies this, store
      ensures store.Valid() && Valid(store)
      ensures !IsObject(v) ==> r == v && reactiveMap == old(reactiveMap) && store.cells == old(store.cells)
                               && store.next == old(store.next)
      ensures IsObject(v) ==>
        r.Obj? && v.addr in reactiveMap && r.addr == reactiveMap[v.addr]
        && (v.addr in old(reactiveMap) ==>
              r.addr == old(reactiveMap[v.addr]) && reactiveMap == old(reactiveMap)
              && store.cells == old(store.cells) && store.next == old(store.next))
        && (v.addr !in old(reactiveMap) ==>
              r.addr == old(store.next) && store.cells == old(store.cells)[r.addr := Proxy(v.addr, MutableHandlers)]
              && store.next == r.addr + 1 && reactiveMap == old(reactiveMap)[v.addr := r.addr])
    {
      if !IsObject(v) {
        return v;
      }
      var p := CreateReactiveObject(store, v.addr, MutableHandlers);
      r := Obj(p);
    }
  }
}
