/** `normalizeClass`: flattening a class binding (string, array or object) into one class string. */
module NormalizeProps {
  import opened Values

  /**
   * The argument of `normalizeClass`, by its JavaScript type: a string, an array, a plain object
   * (its enumerable keys in for-in order, each with its value), or anything else.
   */
  datatype ClassValue =
    | ClassStr(s: string)
    | ClassList(items: seq<ClassValue>)
    | ClassDict(entries: seq<(string, Value)>)
    | Other(v: Value)

  /** The strings of `xs` separated by single spaces. */
  function Join(xs: seq<string>): string {
    if |xs| == 0 then ""
    else if |xs| == 1 then xs[0]
    else Join(xs[..|xs| - 1]) + " " + xs[|xs| - 1]
  }

  /** Each string of `xs` followed by one space: what `res += x + " "` builds. */
  function Spaced(xs: seq<string>): string {
    if xs == [] then "" else Spaced(xs[..|xs| - 1]) + xs[|xs| - 1] + " "
  }

  /** The names whose value is truthy, in iteration order. */
  function TruthyNames(entries: seq<(string, Value)>): seq<string> {
    if entries == [] then []
    else
      var last := entries[|entries| - 1];
      TruthyNames(entries[..|entries| - 1]) + (if Truthy(last.1) then [last.0] else [])
  }

  /** The non-empty normalized forms of the first `n` elements of a class list. */
  function NonEmptyPrefix(v: ClassValue, n: nat): seq<string>
    requires v.ClassList? && n <= |v.items|
    decreases v, 0, n
  {
    if n == 0 then []
    else
      var c := Normalized(v.items[n - 1]);
      NonEmptyPrefix(v, n - 1) + (if c != "" then [c] else [])
  }

  /**
   * What a class binding means: a string trimmed; an array, the non-empty normalized
   * elements joined by single spaces; an object, the keys with truthy values, space-separated
   * and trimmed; anything else (numbers, booleans, null, undefined), the empty string.
   */
  function Normalized(v: ClassValue): string
    decreases v, 1, 0
  {
    match v
    case ClassStr(s) => Trim(s)
    case ClassList(items) => Join(NonEmptyPrefix(v, |items|))
    case ClassDict(entries) => Trim(Join(TruthyNames(entries)))
    case Other(_) => ""
  }

  /** No surrounding whitespace: the form `trim` produces. */
  predicate IsTrimmed(s: string) {
    s == [] || (!IsJsWhitespace(s[0]) && !IsJsWhitespace(s[|s| - 1]))
  }

  /** Every string non-empty and without surrounding whitespace. */
  predicate AllClasses(xs: seq<string>) {
    forall i :: 0 <= i < |xs| ==> xs[i] != "" && IsTrimmed(xs[i])
  }

  lemma {:induction false} JoinEnds(xs: seq<string>)
    requires AllClasses(xs)
    ensures xs != [] ==> Join(xs) != "" && Join(xs)[0] == xs[0][0]
    ensures xs != [] ==> Join(xs)[|Join(xs)| - 1] == xs[|xs| - 1][|xs[|xs| - 1]| - 1]
  {
    if |xs| > 1 {
      var init := xs[..|xs| - 1];
      assert AllClasses(init) by {
        forall i | 0 <= i < |init| ensures init[i] != "" && IsTrimmed(init[i]) {
          assert init[i] == xs[i];
        }
      }
      JoinEnds(init);
    }
  }

  lemma {:induction false} NonEmptyPrefixTrimmed(v: ClassValue, n: nat)
    requires v.ClassList? && n <= |v.items|
    ensures AllClasses(NonEmptyPrefix(v, n))
    decreases v, 0, n
  {
    if n > 0 {
      NonEmptyPrefixTrimmed(v, n - 1);
      AllClassesSnocNormalized(NonEmptyPrefix(v, n - 1), v.items[n - 1]);
    }
  }

  /** Appending the normalized form of an element, when it is not empty, keeps a list of classes one. */
  lemma {:induction false} AllClassesSnocNormalized(xs: seq<string>, x: ClassValue)
    requires AllClasses(xs)
    ensures AllClasses(xs + (if Normalized(x) != "" then [Normalized(x)] else []))
    decreases x, 2, 0
  {
    NormalizedIsTrimmed(x);
    AllClassesSnoc(xs, Normalized(x));
  }

  /** Appending a trimmed string, when it is not empty, keeps a list of classes one. */
  lemma AllClassesSnoc(xs: seq<string>, c: string)
    requires AllClasses(xs) && IsTrimmed(c)
    ensures AllClasses(xs + (if c != "" then [c] else []))
  {
    if c != "" {
      forall i | 0 <= i < |xs + [c]| ensures (xs + [c])[i] != "" && IsTrimmed((xs + [c])[i]) {
        if i < |xs| {
          assert (xs + [c])[i] == xs[i];
        }
      }
    } else {
      assert xs + [] == xs;
    }
  }

  /** The result never has leading or trailing whitespace. */
  lemma {:induction false} NormalizedIsTrimmed(v: ClassValue)
    ensures IsTrimmed(Normalized(v))
    decreases v, 1, 0
  {
    match v
    case ClassList(items) =>
      NonEmptyPrefixTrimmed(v, |items|);
      JoinEnds(NonEmptyPrefix(v, |items|));
    case _ =>
  }

  /** An array's result is empty exactly when every element normalizes to the empty string. */
  lemma {:induction false} SpacedIsJoinPlusSpace(xs: seq<string>)
    ensures xs == [] ==> Spaced(xs) == ""
    ensures xs != [] ==> Spaced(xs) == Join(xs) + " "
  {
    if |xs| > 1 {
      SpacedIsJoinPlusSpace(xs[..|xs| - 1]);
    }
  }

  lemma SpacedSnoc(xs: seq<string>, x: string)
    ensures Spaced(xs + [x]) == Spaced(xs) + x + " "
  {
    assert (xs + [x])[..|xs|] == xs;
  }

  lemma TrimEndDropsSpace(s: string)
    ensures TrimEnd(s + " ") == TrimEnd(s)
  {
    assert (s + " ")[..|s + " "| - 1] == s;
  }

  lemma {:induction false} TrimStartOfSpaced(s: string)
    ensures s != [] && !IsJsWhitespace(s[0]) ==> TrimStart(s) == s
    ensures TrimStart(s + " ") == if TrimStart(s) == [] then [] else TrimStart(s) + " "
  {
    if s != [] && IsJsWhitespace(s[0]) {
      assert (s + " ")[1..] == s[1..] + " ";
      TrimStartOfSpaced(s[1..]);
    } else if s == [] {
      assert TrimStart(" ") == TrimStart(""[..0]);
    }
  }

  /** Trimming after the final `res += name + " "` gives the trimmed, space-joined names. */
  lemma TrimSpaced(xs: seq<string>)
    ensures Trim(Spaced(xs)) == Trim(Join(xs))
  {
    SpacedIsJoinPlusSpace(xs);
    if xs != [] {
      var j := Join(xs);
      TrimStartOfSpaced(j);
      if TrimStart(j) != [] {
        TrimEndDropsSpace(TrimStart(j));
      }
    }
  }

  lemma TrimOfTrimmed(s: string)
    requires IsTrimmed(s)
    ensures Trim(s) == s
  {
    if s != [] {
      TrimStartOfSpaced(s);
    }
  }

  /**
   * `normalizeClass`, as written: a string is taken as it is, an array appends each non-empty
   * normalized element and a space, an object appends each truthy key and a space, and the
   * accumulated string is trimmed at the end. The two loops are in the helpers below.
   */
  method NormalizeClass(value: ClassValue) returns (r: string)
    ensures r == Normalized(value)
    decreases value, 1
  {
    var res := "";
    match value {
      case ClassStr(s) =>
        res := s;
        r := Trim(res);
      case ClassList(_) =>
        r := NormalizeList(value);
      case ClassDict(entries) =>
        r := NormalizeDict(entries);
      case Other(_) =>
        r := Trim(res);
    }
  }

  /** The array branch: `res += normalized + " "` for each non-empty element, then `trim`. */
  method NormalizeList(value: ClassValue) returns (r: string)
    requires value.ClassList?
    ensures r == Normalized(value)
    decreases value, 0
  {
    var items := value.items;
    var res := "";
    var i := 0;
    ghost var acc: seq<string> := [];
    while i < |items|
      invariant 0 <= i <= |items|
      invariant acc == NonEmptyPrefix(value, i)
      invariant res == Spaced(acc)
    {
      var normalized := NormalizeClass(items[i]);
      NonEmptyStep(value, i, acc);
      if normalized != "" {
        SpacedSnoc(acc, normalized);
        res := res + normalized + " ";
        acc := acc + [normalized];
      }
      i := i + 1;
    }
    ListResult(value, acc);
    r := Trim(res);
  }

  lemma NonEmptyStep(value: ClassValue, i: nat, acc: seq<string>)
    requires value.ClassList? && i < |value.items| && acc == NonEmptyPrefix(value, i)
    ensures NonEmptyPrefix(value, i + 1) ==
      acc + (if Normalized(value.items[i]) != "" then [Normalized(value.items[i])] else [])
  {
  }

  lemma ListResult(value: ClassValue, acc: seq<string>)
    requires value.ClassList? && acc == NonEmptyPrefix(value, |value.items|)
    ensures Trim(Spaced(acc)) == Normalized(value)
  {
    TrimSpaced(acc);
    NormalizedIsTrimmed(value);
    TrimOfTrimmed(Normalized(value));
  }

  /** The object branch: `res += name + " "` for each key with a truthy value, then `trim`. */
  method NormalizeDict(entries: seq<(string, Value)>) returns (r: string)
    ensures r == Normalized(ClassDict(entries))
  {
    var res := "";
    var i := 0;
    ghost var acc: seq<string> := [];
    while i < |entries|
      invariant 0 <= i <= |entries|
      invariant acc == TruthyNames(entries[..i])
      invariant res == Spaced(acc)
    {
      assert entries[..i + 1][..i] == entries[..i];
      if Truthy(entries[i].1) {
        SpacedSnoc(acc, entries[i].0);
        res := res + entries[i].0 + " ";
        acc := acc + [entries[i].0];
      }
      i := i + 1;
    }
    assert entries[..|entries|] == entries;
    r := Trim(res);
    TrimSpaced(acc);
  }

  /** A string input gives that string trimmed. */
  lemma StringInput(s: string)
    ensures Normalized(ClassStr(s)) == Trim(s)
  {
  }

  /** Numbers and every other non-string, non-object value give the empty string. */
  lemma OtherInput(v: Value)
    ensures Normalized(Other(v)) == ""
  {
  }
}
