/**
 * `computed.ts`: the closure state of one `computed(getter)` — the `dirty` flag and the cached
 * `value` — with the lazy effect that runs the getter and the object whose `value` getter reads
 * it. Running the getter is user code; the runtime runs it where the source calls `effectFn()`.
 */
module Computed {
  import opened Values

  class ComputedRef {
    /** `dirty`: the cached value must be recomputed before it is returned. */
    var dirty: bool
    /** `value`: the last value the getter returned. */
    var value: Value
    /** The lazy effect `effectFn` that runs the getter, scheduled by `Schedule`. */
    const effect: nat
    /** The object `obj` whose `value` getter is `Read`, the target of its `track` and `trigger`. */
    const obj: Addr

    /** A new computed is dirty and has no value yet, so its getter has not run. */
    constructor (effect: nat, obj: Addr)
      ensures dirty && value == Undefined && this.effect == effect && this.obj == obj
    {
      dirty := true;
      value := Undefined;
      this.effect := effect;
      this.obj := obj;
    }

    /**
     * The scheduler: marks the value stale, and reports whether this was the clean-to-dirty
     * transition, the only case in which `trigger(obj, 'value')` follows.
     */
    method Schedule() returns (fire: bool)
      modifies this
      ensures dirty && value == old(value)
      ensures fire <==> !old(dirty)
    {
      fire := !dirty;
      if !dirty {
        dirty := true;
      }
    }

    /** Whether the `value` getter must run `effectFn()` first. */
    predicate NeedsRecompute()
      reads this
    {
      dirty
    }

    /** The `value` getter after `effectFn()` returned `v`: the value is cached and clean. */
    method Recomputed(v: Value)
      modifies this
      ensures !dirty && value == v
    {
      value := v;
      dirty := false;
    }
  }
}
