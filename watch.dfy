/**
 * `watch.ts`: the closure state of one `watch(source, cb)` — `oldValue` and `newValue` — with the
 * lazy effect that runs the getter. The callback is user code that this model does not run: each
 * call is reported with its two arguments.
 */
module Watch {
  import opened Values

  class Watcher {
    var oldValue: Value
    var newValue: Value
    /** The lazy effect whose body is the getter. */
    const effect: nat
    /** Identity of the user callback `cb`. */
    const cb: nat

    /** Before the first getter run both closure variables are `undefined`. */
    constructor (effect: nat, cb: nat)
      ensures oldValue == Undefined && newValue == Undefined && this.effect == effect && this.cb == cb
    {
      oldValue := Undefined;
      newValue := Undefined;
      this.effect := effect;
      this.cb := cb;
    }

    /** `oldValue = effectFn()` at registration: the first getter result only seeds `oldValue`; no callback. */
    method Seed(v: Value)
      modifies this
      ensures oldValue == v && newValue == old(newValue)
    {
      oldValue := v;
    }

    /**
     * The scheduler after `newValue = effectFn()` returned `v`: the callback receives `(v, previous
     * oldValue)`, and `oldValue` becomes `v`.
     */
    method Fired(v: Value) returns (cbNew: Value, cbOld: Value)
      modifies this
      ensures cbNew == v && cbOld == old(oldValue)
      ensures newValue == v && oldValue == v
    {
      newValue := v;
      cbNew, cbOld := newValue, oldValue;
      oldValue := newValue;
    }
  }
}
