/**
 * JavaScript values and property keys as the reactivity engine sees them, with the
 * equality, truthiness and number conversions that the source relies on.
 */
module Values {
  import opened Wrappers

  /** Identity of a heap object (plain object, array, wrapper, ref, ...). */
  type Addr = nat

  /** A JavaScript number: NaN, or a finite integer (fractions, infinities and -0 are not modelled). */
  datatype Number = NaN | Int(i: int)

  datatype Value =
    | Undefined
    | Null
    | Bool(b: bool)
    | Num(n: Number)
    | Str(s: string)
    | Symbol(id: nat)
    | Obj(addr: Addr)

  /** What `Array.isArray` and `toRawType` tell apart about an object. */
  datatype ObjKind = PlainObject | ArrayObject | MapObject

  /** Errors the modelled code can throw. */
  datatype JsError = TypeError | RangeError | ReferenceError

  /**
   * A property key: a canonical array index, any other string name, or a symbol.
   * A `Name` never holds the canonical decimal form of an index. The symbols a program can
   * hold are the values `Symbol(id)` and have ids `>= 0`; a negative id is a symbol that the
   * reactivity core keeps to itself.
   */
  datatype Key = Idx(i: nat) | Name(s: string) | SymKey(id: int)

  const LengthKey: Key := Name("length")
  const ValueKey: Key := Name("value")
  /**
   * `ITERATE_KEY`, the symbol subscribed to by key enumeration. It is exported, so a program
   * can hold it: it is the value `Symbol(0)`.
   */
  const IterateKey: Key := SymKey(0)
  /**
   * `MAP_KEY_ITERATE_KEY`, the map-key iteration key. It is never exported, so no value a
   * program holds converts to it (`MapKeyIterateKeyUnreachable`).
   */
  const MapKeyIterateKey: Key := SymKey(-1)
  /** The reserved reads `__v_raw`, `__v_isReadonly`, `__v_isReactive`. */
  const RawFlag: Key := Name("__v_raw")
  const IsReadonlyFlag: Key := Name("__v_isReadonly")
  const IsReactiveFlag: Key := Name("__v_isReactive")

  predicate IsNaN(v: Value) { v == Num(NaN) }

  /** `typeof v === 'object' && v !== null` */
  predicate IsObject(v: Value) { v.Obj? }

  /** JavaScript `===`: identity for objects, content for primitives, and NaN equal to nothing. */
  predicate StrictEquals(a: Value, b: Value) { a == b && !IsNaN(a) }

  /**
   * The change test of the setter: `value !== oldValue && (oldValue === oldValue || value === value)`.
   * NaN counts as equal to NaN, so this is exactly structural inequality.
   */
  predicate HasChanged(oldValue: Value, value: Value)
    ensures HasChanged(oldValue, value) <==> oldValue != value
  {
    !StrictEquals(value, oldValue) && (StrictEquals(oldValue, oldValue) || StrictEquals(value, value))
  }

  /** JavaScript truthiness. */
  predicate Truthy(v: Value) {
    match v
    case Undefined => false
    case Null => false
    case Bool(b) => b
    case Num(n) => n != NaN && n != Int(0)
    case Str(s) => s != ""
    case Symbol(_) => true
    case Obj(_) => true
  }

  /** The characters `String.prototype.trim` removes: WhiteSpace and LineTerminator of ECMA-262. */
  predicate IsJsWhitespace(c: char) {
    c == '\t' || c == '\n' || c == '\U{B}' || c == '\U{C}' || c == '\r' || c == ' '
    || c == '\U{A0}' || c == '\U{1680}' || ('\U{2000}' <= c <= '\U{200A}')
    || c == '\U{2028}' || c == '\U{2029}' || c == '\U{202F}' || c == '\U{205F}' || c == '\U{3000}'
    || c == '\U{FEFF}'
  }

  /** Drops the leading whitespace of `s`, and nothing else. */
  function TrimStart(s: string): (r: string)
    ensures |r| <= |s| && r == s[|s| - |r|..]
    ensures forall i :: 0 <= i < |s| - |r| ==> IsJsWhitespace(s[i])
    ensures r == [] || !IsJsWhitespace(r[0])
  {
    if s != [] && IsJsWhitespace(s[0]) then TrimStart(s[1..]) else s
  }

  /** Drops the trailing whitespace of `s`, and nothing else. */
  function TrimEnd(s: string): (r: string)
    ensures |r| <= |s| && r == s[..|r|]
    ensures forall i :: |r| <= i < |s| ==> IsJsWhitespace(s[i])
    ensures r == [] || !IsJsWhitespace(r[|r| - 1])
  {
    if s != [] && IsJsWhitespace(s[|s| - 1]) then TrimEnd(s[..|s| - 1]) else s
  }

  /** `r` is the slice of `s` starting at `a`, and every character of `s` outside it is whitespace. */
  predicate SpacedSlice(s: string, a: int, r: string)
  {
    && 0 <= a <= |s| - |r| && r == s[a..a + |r|]
    && (forall i :: 0 <= i < a ==> IsJsWhitespace(s[i]))
    && (forall i :: a + |r| <= i < |s| ==> IsJsWhitespace(s[i]))
  }

  /** `String.prototype.trim`; `TrimSlice` states that it removes whitespace and nothing else. */
  function Trim(s: string): (r: string)
    ensures r == [] || (!IsJsWhitespace(r[0]) && !IsJsWhitespace(r[|r| - 1]))
  {
    TrimEnd(TrimStart(s))
  }

  /**
   * `Trim(s)` is a slice of `s`, and every character of `s` outside that slice is whitespace.
   * With `Trim`'s own contract, the slice is the largest one without surrounding whitespace.
   */
  lemma TrimSlice(s: string)
    ensures exists a :: SpacedSlice(s, a, Trim(s))
  {
    var t := TrimStart(s);
    var a := |s| - |t|;
    var r := TrimEnd(t);
    assert t == s[a..];
    forall i | a + |r| <= i < |s| ensures IsJsWhitespace(s[i]) {
      assert s[i] == t[i - a];
    }
    assert Trim(s) == r;
    assert SpacedSlice(s, a, r);
  }

  predicate IsDigit(c: char) { '0' <= c <= '9' }

  function DigitsValue(s: string): (n: nat)
    requires forall i :: 0 <= i < |s| ==> IsDigit(s[i])
  {
    if s == [] then 0
    else
      assert IsDigit(s[|s| - 1]);
      DigitsValue(s[..|s| - 1]) * 10 + (s[|s| - 1] as int - '0' as int)
  }

  /** `String(n)`: the decimal digits of `n`, with no leading zero. */
  function DecimalString(n: nat): (s: string)
    ensures s != [] && forall i :: 0 <= i < |s| ==> IsDigit(s[i])
    ensures n > 0 ==> s[0] != '0'
  {
    if n < 10 then [('0' as int + n) as char]
    else DecimalString(n / 10) + [('0' as int + n % 10) as char]
  }

  /** Reading back the digits `String(n)` writes gives `n`. */
  lemma {:induction false} DecimalStringValue(n: nat)
    ensures DigitsValue(DecimalString(n)) == n
  {
    if n >= 10 {
      var s := DecimalString(n / 10);
      var c := ('0' as int + n % 10) as char;
      DecimalStringValue(n / 10);
      assert (s + [c])[..|s + [c]| - 1] == s;
    }
  }

  /**
   * The property key a string denotes: a canonical decimal numeral (no sign and no leading zero) is
   * an index, any other string a name.
   */
  function CanonicalKey(s: string): (k: Key)
    ensures k.Name? ==> k.s == s
  {
    if s != [] && (forall i :: 0 <= i < |s| ==> IsDigit(s[i])) && (s[0] != '0' || |s| == 1)
    then Idx(DigitsValue(s))
    else Name(s)
  }

  /** `String(n)` denotes the index `n`. */
  lemma IndexKeyRoundTrip(n: nat)
    ensures CanonicalKey(DecimalString(n)) == Idx(n)
  {
    DecimalStringValue(n);
  }

  /** The string a `for ... in` loop binds for a key (symbols never reach it, but map to themselves). */
  function KeyToValue(k: Key): Value
    requires k.SymKey? ==> k.id >= 0
  {
    match k
    case Idx(i) => Str(DecimalString(i))
    case Name(s) => Str(s)
    case SymKey(id) => Symbol(id)
  }

  /**
   * `ToPropertyKey(v)` for the values the model has: strings by `CanonicalKey`, numbers by their
   * decimal form, symbols as themselves, other primitives by their names. Objects would call
   * `toString`, which is not modelled.
   */
  function ToPropertyKey(v: Value): Option<Key> {
    match v
    case Undefined => Some(Name("undefined"))
    case Null => Some(Name("null"))
    case Bool(b) => Some(Name(if b then "true" else "false"))
    case Num(n) =>
      if n == NaN then Some(Name("NaN"))
      else if n.i >= 0 then Some(Idx(n.i))
      else Some(Name("-" + DecimalString(-n.i)))
    case Str(s) => Some(CanonicalKey(s))
    case Symbol(id) => Some(SymKey(id))
    case Obj(_) => None
  }

  /** A well-formed key (a `Name` is never a canonical numeral) survives the trip to a value and back. */
  lemma {:induction false} KeyValueRoundTrip(k: Key)
    requires k.Name? ==> CanonicalKey(k.s) == k
    requires k.SymKey? ==> k.id >= 0
    ensures ToPropertyKey(KeyToValue(k)) == Some(k)
  {
    if k.Idx? {
      IndexKeyRoundTrip(k.i);
    }
  }
  /** No value converts to `MAP_KEY_ITERATE_KEY`: a program cannot read, write or test that key. */
  lemma MapKeyIterateKeyUnreachable(v: Value)
    ensures ToPropertyKey(v) != Some(MapKeyIterateKey)
  {
  }

  /** The exported `ITERATE_KEY` is the value `Symbol(0)`, and no other value converts to it. */
  lemma IterateKeyIsSymbolZero(v: Value)
    ensures ToPropertyKey(v) == Some(IterateKey) <==> v == Symbol(0)
  {
  }


  predicate AllDigits(s: string) {
    forall i :: 0 <= i < |s| ==> IsDigit(s[i])
  }

  /** How many decimal digits `s` starts with. */
  function DigitPrefix(s: string): (n: nat)
    ensures n <= |s| && AllDigits(s[..n]) && (n < |s| ==> !IsDigit(s[n]))
  {
    if s == [] || !IsDigit(s[0]) then 0
    else
      var m := DigitPrefix(s[1..]);
      assert s[..m + 1] == [s[0]] + s[1..][..m];
      m + 1
  }

  /** `10^n`. */
  function Pow10(n: nat): (r: nat)
    ensures r >= 1
  {
    if n == 0 then 1 else 10 * Pow10(n - 1)
  }

  /** The number `m * 10^x` when it is an integer; a fraction is not a `Number` of the model and gives NaN. */
  function Scaled(m: nat, x: int): Number {
    if x >= 0 then Int(m * Pow10(x))
    else if m % Pow10(-x) == 0 then Int(m / Pow10(-x))
    else NaN
  }

  /** The optional `ExponentPart` closing a decimal literal: nothing (0), or `e`/`E`, an optional sign and digits. */
  function ExponentPart(s: string): Option<int> {
    if s == [] then Some(0)
    else if s[0] != 'e' && s[0] != 'E' then None
    else
      var d := if |s| > 1 && (s[1] == '+' || s[1] == '-') then s[2..] else s[1..];
      if d == [] || !AllDigits(d) then None
      else
        var v: int := DigitsValue(d);
        if |s| > 1 && s[1] == '-' then Some(-v) else Some(v)
  }

  /**
   * `StrUnsignedDecimalLiteral` other than `Infinity`: digits, an optional `.` and fraction digits,
   * with at least one digit in all, then an optional exponent.
   */
  function UnsignedDecimal(u: string): Number {
    var i := DigitPrefix(u);
    if i < |u| && u[i] == '.' then FractionLiteral(u[..i], u[i + 1..])
    else if i == 0 then NaN
    else WithExponent(DigitsValue(u[..i]), 0, u[i..])
  }

  /** The part of a decimal literal after its `.`, with the digits `d` read before it. */
  function FractionLiteral(d: string, rest: string): Number
    requires AllDigits(d)
  {
    var j := DigitPrefix(rest);
    if d == [] && j == 0 then NaN
    else WithExponent(DigitsValue(d + rest[..j]), j, rest[j..])
  }

  /** The digits `m`, of which the last `shift` were after the point, scaled by the exponent part `tail`. */
  function WithExponent(m: nat, shift: nat, tail: string): Number {
    match ExponentPart(tail)
    case None => NaN
    case Some(x) => Scaled(m, x - shift)
  }

  /** The value of a hexadecimal digit, or -1 for any other character. */
  function HexDigitValue(c: char): int {
    if '0' <= c <= '9' then c as int - '0' as int
    else if 'a' <= c <= 'f' then c as int - 'a' as int + 10
    else if 'A' <= c <= 'F' then c as int - 'A' as int + 10
    else -1
  }

  /** The digits of a `0x`, `0o` or `0b` literal in `base`; NaN when one is not a digit of that base. */
  function RadixDigits(s: string, base: nat): Number
    requires base > 1
  {
    if s == [] then Int(0)
    else
      var d := HexDigitValue(s[|s| - 1]);
      if d < 0 || d >= base as int then NaN
      else
        match RadixDigits(s[..|s| - 1], base)
        case NaN => NaN
        case Int(v) => Int(v * base + d)
  }

  /** The negative of a number (`-0` is 0 here). */
  function Negate(n: Number): Number {
    match n
    case NaN => NaN
    case Int(i) => Int(-i)
  }

  /**
   * `Number(s)` for a string (`StringToNumber` of ECMA-262): surrounding whitespace is ignored, the
   * empty string is 0, a `0x`, `0o` or `0b` prefix reads the digits in base 16, 8 or 2, and
   * otherwise an optionally signed decimal literal is read. `Infinity` and a literal whose value is
   * not an integer give NaN here.
   */
  function StringToNumber(s: string): Number {
    NumericLiteral(Trim(s))
  }

  /** `StringNumericLiteral` read from a string with no surrounding whitespace. */
  function NumericLiteral(t: string): Number {
    if t == [] then Int(0)
    else if |t| > 2 && t[0] == '0' && (t[1] == 'x' || t[1] == 'X') then RadixDigits(t[2..], 16)
    else if |t| > 2 && t[0] == '0' && (t[1] == 'o' || t[1] == 'O') then RadixDigits(t[2..], 8)
    else if |t| > 2 && t[0] == '0' && (t[1] == 'b' || t[1] == 'B') then RadixDigits(t[2..], 2)
    else if t[0] == '-' then Negate(UnsignedDecimal(t[1..]))
    else if t[0] == '+' then UnsignedDecimal(t[1..])
    else UnsignedDecimal(t)
  }

  /** A string without surrounding whitespace is its own trim. */
  lemma TrimUnchanged(s: string)
    requires s != [] && !IsJsWhitespace(s[0]) && !IsJsWhitespace(s[|s| - 1])
    ensures Trim(s) == s
  {
  }

  /** A digit is not whitespace. */
  lemma DigitNotSpace(c: char)
    requires IsDigit(c)
    ensures !IsJsWhitespace(c)
  {
  }

  /** A literal with a sign is the unsigned literal after it, negated for `-`. */
  lemma SignedLiteral(t: string)
    requires t != [] && (t[0] == '-' || t[0] == '+')
    ensures NumericLiteral(t) == if t[0] == '-' then Negate(UnsignedDecimal(t[1..])) else UnsignedDecimal(t[1..])
  {
  }

  /** A run of digits reads as its decimal value. */
  lemma DigitsDecimal(d: string)
    requires d != [] && AllDigits(d)
    ensures UnsignedDecimal(d) == Int(DigitsValue(d))
  {
    IntegerLiteralValue(d, []);
    assert d + [] == d;
  }

  /**
   * The key of a number converts back to that number: `Number(String(n)) == n` for the index
   * keys and for the names of negative integers, which `trigger` and `set` compare with lengths.
   */
  lemma {:induction false} NumberKeyRoundTrip(n: int)
    ensures ToPropertyKey(Num(Int(n))).Some? && !ToPropertyKey(Num(Int(n))).value.SymKey?
    ensures KeyToNumber(ToPropertyKey(Num(Int(n))).value) == Int(n)
  {
    if n < 0 {
      var d := DecimalString(-n);
      var t := "-" + d;
      assert ToPropertyKey(Num(Int(n))) == Some(Name(t));
      NegativeNumeral(d);
      DecimalStringValue(-n);
    }
  }

  /** `Number("-" + d)` for a run of digits `d` is minus its value. */
  lemma NegativeNumeral(d: string)
    requires d != [] && AllDigits(d)
    ensures StringToNumber("-" + d) == Int(-(DigitsValue(d) as int))
  {
    var t := "-" + d;
    assert t[0] == '-' && t[1..] == d && t[|t| - 1] == d[|d| - 1];
    DigitNotSpace(d[|d| - 1]);
    TrimUnchanged(t);
    SignedLiteral(t);
    DigitsDecimal(d);
  }

  /** `key >= n` in the length branch of `trigger` compares the number a key was made from. */
  lemma NumberKeyAtLeast(m: int, n: int)
    ensures KeyAtLeast(ToPropertyKey(Num(Int(m))).value, Int(n)) == Success(m >= n)
  {
    NumberKeyRoundTrip(m);
  }

  /** A signed name denotes the signed number, as `Number("-1")` and `Number("+1")` do. */
  lemma SignedNames()
    ensures StringToNumber("-1") == Int(-1) && StringToNumber("+1") == Int(1)
  {
    assert DigitsValue("1") == 1 by { assert "1"[..0] == ""; }
    assert "-" + "1" == "-1" && "+" + "1" == "+1";
    NegativeNumeral("1");
    PositiveNumeral("1");
  }

  /** `Number("-0")` reads as 0: JavaScript's negative zero compares like 0 wherever the core compares. */
  lemma NegativeZeroName()
    ensures StringToNumber("-0") == Int(0)
  {
    assert DigitsValue("0") == 0 by { assert "0"[..0] == ""; }
    NegatedZero("0");
    assert "-" + "0" == "-0";
  }

  /** Digits of value 0 after a minus sign read as 0. */
  lemma NegatedZero(d: string)
    requires d != [] && AllDigits(d)
    ensures DigitsValue(d) == 0 ==> StringToNumber("-" + d) == Int(0)
  {
    NegativeNumeral(d);
    var n := StringToNumber("-" + d);
    assert n == Int(-(DigitsValue(d) as int));
  }

  /** `Number("+" + d)` for a run of digits `d` is its value. */
  lemma PositiveNumeral(d: string)
    requires d != [] && AllDigits(d)
    ensures StringToNumber("+" + d) == Int(DigitsValue(d))
  {
    var t := "+" + d;
    assert t[0] == '+' && t[1..] == d && t[|t| - 1] == d[|d| - 1];
    DigitNotSpace(d[|d| - 1]);
    TrimUnchanged(t);
    SignedLiteral(t);
    DigitsDecimal(d);
  }

  /** Digits followed by a non-digit: the digit prefix is exactly the digits. */
  lemma {:induction false} DigitPrefixConcat(a: string, b: string)
    requires AllDigits(a) && (b == [] || !IsDigit(b[0]))
    ensures DigitPrefix(a + b) == |a|
  {
    if a != [] {
      assert (a + b)[1..] == a[1..] + b;
      DigitPrefixConcat(a[1..], b);
    }
  }

  /** A decimal literal `d.fx`, with digits `d` and `f` and an exponent part `x`, reads as `df * 10^(x - |f|)`. */
  lemma DecimalLiteralValue(d: string, f: string, x: string)
    requires AllDigits(d) && AllDigits(f) && (d != [] || f != [])
    requires x == [] || x[0] == 'e' || x[0] == 'E'
    ensures UnsignedDecimal(d + "." + f + x) == WithExponent(DigitsValue(d + f), |f|, x)
  {
    assert d + "." + f + x == d + ("." + (f + x));
    DecimalPoint(d, f + x);
    FractionDigits(d, f, x);
  }

  /** Digits `d` and then a `.`: the rest is read as the fraction. */
  lemma DecimalPoint(d: string, rest: string)
    requires AllDigits(d)
    ensures UnsignedDecimal(d + ("." + rest)) == FractionLiteral(d, rest)
  {
    var u := d + ("." + rest);
    DigitPrefixConcat(d, "." + rest);
    SplitAt(d, "." + rest);
    assert u[|d|] == '.';
    assert u[|d| + 1..] == u[|d|..][1..] == rest;
  }

  /** Fraction digits `f` and then an exponent part `x`, after the digits `d`. */
  lemma FractionDigits(d: string, f: string, x: string)
    requires AllDigits(d) && AllDigits(f) && (d != [] || f != [])
    requires x == [] || x[0] == 'e' || x[0] == 'E'
    ensures FractionLiteral(d, f + x) == WithExponent(DigitsValue(d + f), |f|, x)
  {
    DigitPrefixConcat(f, x);
    SplitAt(f, x);
  }

  /** The parts of a concatenation are its prefix and suffix. */
  lemma SplitAt<T>(a: seq<T>, b: seq<T>)
    ensures (a + b)[..|a|] == a && (a + b)[|a|..] == b
  {
  }

  /** An integer literal `dx`, with digits `d` and an exponent part `x`, reads as `d * 10^x`. */
  lemma IntegerLiteralValue(d: string, x: string)
    requires d != [] && AllDigits(d)
    requires x == [] || x[0] == 'e' || x[0] == 'E'
    ensures UnsignedDecimal(d + x) == WithExponent(DigitsValue(d), 0, x)
  {
    var u := d + x;
    DigitPrefixConcat(d, x);
    assert u[..|d|] == d && u[|d|..] == x;
  }

  /** A trimmed string that starts with neither `0` nor a sign is read as an unsigned decimal literal. */
  lemma UnsignedNumeral(t: string)
    requires t != [] && t[0] != '0' && t[0] != '-' && t[0] != '+'
    requires !IsJsWhitespace(t[0]) && !IsJsWhitespace(t[|t| - 1])
    ensures StringToNumber(t) == UnsignedDecimal(t)
  {
    TrimUnchanged(t);
  }

  /** An exponent scales the digits: `Number("1e3")` is 1000. */
  lemma ExponentName()
    ensures StringToNumber("1e3") == Int(1000)
  {
    UnsignedNumeral("1e3");
    assert "1e3" == "1" + "e3";
    IntegerLiteralValue("1", "e3");
    assert "e3"[1..] == "3";
    assert DigitsValue("3") == 3 by { assert "3"[..0] == ""; }
    assert DigitsValue("1") == 1 by { assert "1"[..0] == ""; }
  }

  /** Fraction digits and an exponent combine: `Number("2.50e1")` is 25. */
  lemma FractionExponentName()
    ensures StringToNumber("2.50e1") == Int(25)
  {
    UnsignedNumeral("2.50e1");
    FractionExponentDigits();
    ScaledTwentyFive();
  }

  /** 250 with two digits after the point and the exponent part `e1` is 25. */
  lemma ScaledTwentyFive()
    ensures WithExponent(250, 2, "e1") == Int(25)
  {
    ExponentOne();
    assert Scaled(250, 1 - 2) == Int(25) by { assert Pow10(1) == 10; }
  }

  /** The exponent part `e1` is 1. */
  lemma ExponentOne()
    ensures ExponentPart("e1") == Some(1)
  {
    assert "e1"[1..] == "1";
    assert DigitsValue("1") == 1 by { assert "1"[..0] == ""; }
  }

  /** `2.50e1` is the digits 250 with two after the point and the exponent part `e1`. */
  lemma FractionExponentDigits()
    ensures UnsignedDecimal("2.50e1") == WithExponent(250, 2, "e1")
  {
    assert "2.50e1" == "2" + "." + "50" + "e1";
    DecimalLiteralValue("2", "50", "e1");
    assert "2" + "50" == "250";
    Digits250();
  }

  /** The digits `250` are 250. */
  lemma Digits250()
    ensures DigitsValue("250") == 250
  {
    assert "250"[..2] == "25" && "25"[..1] == "2" && "2"[..0] == "";
  }

  /** A `0x` prefix reads hexadecimal digits: `Number("0x1F")` is 31. */
  lemma HexName()
    ensures StringToNumber("0x1F") == Int(31)
  {
    var t := "0x1F";
    assert t[2..] == "1F";
    HexPrefix(t);
    HexDigits1F();
  }

  /** A string starting `0x` and ending in a hex digit reads the rest as hexadecimal digits. */
  lemma HexPrefix(t: string)
    requires |t| > 2 && t[0] == '0' && t[1] == 'x' && HexDigitValue(t[|t| - 1]) >= 0
    ensures StringToNumber(t) == RadixDigits(t[2..], 16)
  {
    TrimUnchanged(t);
  }

  /** The hexadecimal digits `1F` are 31. */
  lemma HexDigits1F()
    ensures RadixDigits("1F", 16) == Int(31)
  {
    assert "1F"[..1] == "1" && "1"[..0] == "";
  }

  /** A fraction is not a number of the model: `Number("1.5")` gives NaN here. */
  lemma FractionName()
    ensures StringToNumber("1.5") == NaN
  {
    UnsignedNumeral("1.5");
    FractionDigits15();
    NotIntegral15();
  }

  /** 15 with one digit after the point is not an integer. */
  lemma NotIntegral15()
    ensures WithExponent(15, 1, "") == NaN
  {
    assert Pow10(1) == 10;
    assert 15 % 10 == 5;
  }

  /** `1.5` is the digits 15 with one after the point and no exponent part. */
  lemma FractionDigits15()
    ensures UnsignedDecimal("1.5") == WithExponent(15, 1, "")
  {
    assert "1.5" == "1" + "." + "5" + "";
    DecimalLiteralValue("1", "5", "");
    assert "1" + "5" == "15";
    assert DigitsValue("15") == 15 by { assert "15"[..1] == "1" && "1"[..0] == ""; }
  }

  /** A word is no number: `Number("length")` is NaN. */
  lemma WordName()
    ensures StringToNumber("length") == NaN
  {
    var t := "length";
    assert t[0] == 'l' && t[|t| - 1] == 'h';
    UnsignedNumeral(t);
    assert DigitPrefix(t) == 0;
  }

  /**
   * `Number(v)`. Objects (no `valueOf` is modelled) give NaN; on a symbol, where JavaScript throws,
   * it gives NaN too, and every caller that can see a symbol throws first.
   */
  function ToNumber(v: Value): Number {
    match v
    case Undefined => NaN
    case Null => Int(0)
    case Bool(b) => if b then Int(1) else Int(0)
    case Num(n) => n
    case Str(s) => StringToNumber(s)
    case Symbol(_) => NaN
    case Obj(_) => NaN
  }

  /** `Number(key)` for a property key used as a string. */
  function KeyToNumber(k: Key): Number
    requires !k.SymKey?
  {
    match k
    case Idx(i) => Int(i)
    case Name(s) => StringToNumber(s)
  }

  /** `ToLength(v)` for the values the model has: NaN and negative numbers give 0. */
  function ToLength(v: Value): nat {
    var n := ToNumber(v);
    if n.Int? && n.i > 0 then n.i else 0
  }

  /** `a < b` on two numbers: false whenever either is NaN. */
  predicate NumberLess(a: Number, b: Number) {
    a.Int? && b.Int? && a.i < b.i
  }

  /**
   * The comparison `key >= n` in the length branch of `trigger`: a string key is converted to a number
   * (NaN compares false), and a symbol key makes the comparison throw a TypeError.
   */
  function KeyAtLeast(k: Key, n: Number): (r: Result<bool, JsError>)
    ensures r.Failure? <==> k.SymKey?
    ensures k.Idx? && n.Int? ==> r == Success(k.i >= n.i)
    ensures n == NaN && !k.SymKey? ==> r == Success(false)
  {
    match k
    case SymKey(_) => Failure(TypeError)
    case _ =>
      var kn := KeyToNumber(k);
      Success(kn.Int? && n.Int? && kn.i >= n.i)
  }
}
