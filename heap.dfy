/**
 * The object store: every JavaScript object the engine touches, keyed by identity.
 * Ordinary objects, arrays and Maps hold their own data properties; the other cells are the
 * exotic objects of the reactivity package (wrappers, `proxyRefs` wrappers, refs and computed
 * objects), whose state lives in their own classes.
 * The `Raw*` functions are the `Reflect` operations on an ordinary object or array
 * (ECMA-262, sections 10.1 and 10.4.2); prototypes and accessor properties are not modelled.
 */
module Heap {
  import opened Wrappers
  import opened Values

  /** The four handler objects a wrapper can be created with. */
  datatype Handlers = MutableHandlers | ReadonlyHandlers | ShallowReactiveHandlers | ShallowReadonlyHandlers

  predicate IsReadonlyHandlers(h: Handlers) {
    h == ReadonlyHandlers || h == ShallowReadonlyHandlers
  }

  predicate IsShallowHandlers(h: Handlers) {
    h == ShallowReactiveHandlers || h == ShallowReadonlyHandlers
  }

  datatype Cell =
    | Plain(kind: ObjKind, props: map<Key, Value>)
    | Proxy(target: Addr, handlers: Handlers)
    | RefsProxy(target: Addr)
    | RefObject
    | ComputedObject

  /** 2^32 - 1: array indices lie below it and an array length is at most it. */
  const ArrayIndexLimit: nat := 0x1_0000_0000 - 1

  predicate IsArrayIndex(k: Key) {
    k.Idx? && k.i < ArrayIndexLimit
  }

  type Props = map<Key, Value>

  /** The `length` of an array, as stored in its `length` property. */
  function ArrayLength(props: Props): nat {
    if LengthKey in props && props[LengthKey].Num? && props[LengthKey].n.Int? && props[LengthKey].n.i >= 0
    then props[LengthKey].n.i
    else 0
  }

  /** `Reflect.get` of a data property: a missing key reads as `undefined`. */
  function RawGet(props: Props, key: Key): Value {
    if key in props then props[key] else Undefined
  }

  /** `Object.prototype.hasOwnProperty`. */
  predicate HasOwn(props: Props, key: Key) {
    key in props
  }

  /** The properties left after an array's length is set to `n`: every index at or above `n` goes. */
  function Truncate(props: Props, n: nat): (r: Props)
    ensures forall k :: k in r <==> k == LengthKey || (k in props && !(IsArrayIndex(k) && k.i >= n))
  {
    (map k | k in props && !(IsArrayIndex(k) && k.i >= n) :: props[k])[LengthKey := Num(Int(n))]
  }

  /**
   * `Reflect.set` on an ordinary object or array. Writing an index at or past an array's length
   * extends the length; writing an array's `length` truncates it, a symbol (which has no number)
   * throws a TypeError, and a value that is not a valid length (its number is not an integer in
   * 0 .. 2^32 - 1) a RangeError.
   */
  function RawSet(kind: ObjKind, props: Props, key: Key, v: Value): Result<Props, JsError> {
    if kind == ArrayObject && key == LengthKey && v.Symbol? then Failure(TypeError)
    else if kind == ArrayObject && key == LengthKey then
      var n := ToNumber(v);
      if n.Int? && 0 <= n.i <= ArrayIndexLimit then Success(Truncate(props, n.i)) else Failure(RangeError)
    else if kind == ArrayObject && IsArrayIndex(key) && key.i >= ArrayLength(props) then
      Success(props[key := v][LengthKey := Num(Int(key.i + 1))])
    else
      Success(props[key := v])
  }

  /** `Reflect.deleteProperty`: an array's `length` cannot be deleted; any other key can. */
  function RawDelete(kind: ObjKind, props: Props, key: Key): (Props, bool) {
    if kind == ArrayObject && key == LengthKey then (props, false) else (props - {key}, true)
  }

  /** `Reflect.ownKeys` (its order is not modelled). */
  function OwnKeys(props: Props): set<Key> {
    props.Keys
  }

  /** A write of anything but an array's length stores the value under the key. */
  lemma RawSetStores(kind: ObjKind, props: Props, key: Key, v: Value)
    requires !(kind == ArrayObject && key == LengthKey)
    ensures RawSet(kind, props, key, v).Success?
    ensures RawGet(RawSet(kind, props, key, v).value, key) == v
  {
  }

  /** An array index written at or past the length makes the length one more than the index. */
  lemma ArrayIndexWriteLength(props: Props, key: Key, v: Value)
    requires IsArrayIndex(key)
    ensures ArrayLength(RawSet(ArrayObject, props, key, v).value)
            == if key.i >= ArrayLength(props) then key.i + 1 else ArrayLength(props)
  {
  }

  /** Setting an array's length to `n` leaves exactly the indices below `n`, with their values. */
  lemma LengthWriteTruncates(props: Props, n: nat)
    requires n <= ArrayIndexLimit
    ensures RawSet(ArrayObject, props, LengthKey, Num(Int(n))).Success?
    ensures var r := RawSet(ArrayObject, props, LengthKey, Num(Int(n))).value;
            ArrayLength(r) == n
            && (forall k :: IsArrayIndex(k) && k.i >= n ==> k !in r)
            && (forall k :: k in props && k != LengthKey && !(IsArrayIndex(k) && k.i >= n) ==> k in r && r[k] == props[k])
  {
  }

  /** A length that is not an integer in range throws. */
  lemma BadLengthThrows(props: Props, v: Value)
    requires !v.Symbol? && !(ToNumber(v).Int? && 0 <= ToNumber(v).i <= ArrayIndexLimit)
    ensures RawSet(ArrayObject, props, LengthKey, v) == Failure(RangeError)
  {
  }

  /** A successful delete removes exactly the key; a refused one changes nothing. */
  lemma RawDeleteRemoves(kind: ObjKind, props: Props, key: Key)
    ensures var (r, ok) := RawDelete(kind, props, key);
            (ok ==> !HasOwn(r, key) && forall k :: k != key ==> (k in r <==> k in props))
            && (!ok ==> r == props && kind == ArrayObject && key == LengthKey)
  {
  }

  /** The store of all objects, with the next free identity. */
  class Store {
    var cells: map<Addr, Cell>
    var next: Addr

    ghost predicate Valid()
      reads this
    {
      forall a :: a in cells ==> a < next
    }

    constructor ()
      ensures Valid() && cells == map[] && next == 0
    {
      cells := map[];
      next := 0;
    }

    /** Allocates a new object with the given contents. */
    method Alloc(c: Cell) returns (a: Addr)
      requires Valid()
      modifies this
      ensures Valid()
      ensures a == old(next) && a !in old(cells)
      ensures cells == old(cells)[a := c] && next == old(next) + 1
    {
      a := next;
      cells := cells[a := c];
      next := next + 1;
    }

    /** Replaces the properties of an ordinary object, array or Map. */
    method SetProps(a: Addr, props: Props)
      requires Valid() && a in cells && cells[a].Plain?
      modifies this
      ensures Valid()
      ensures cells == old(cells)[a := Plain(old(cells[a].kind), props)] && next == old(next)
    {
      cells := cells[a := Plain(cells[a].kind, props)];
    }
  }
}
