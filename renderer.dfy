/**
 * The self-contained algorithms of the renderer: the increasing subsequence used to
 * minimise moves, the props comparison and split, and the middle section of the keyed diff.
 */
module Renderer {
  import opened Wrappers
  import opened Values

  // ---------------------------------------------------------------------------------------
  // getSequence

  /** `r` is a list of strictly increasing indices of `a` along which `a` strictly increases. */
  predicate IncreasingRun(a: seq<int>, r: seq<int>)
  {
    && (forall k :: 0 <= k < |r| ==> 0 <= r[k] < |a|)
    && (forall k :: 0 < k < |r| ==> r[k - 1] < r[k] && a[r[k - 1]] < a[r[k]])
  }

  /**
   * An increasing run that `getSequence` competes with: it may use index 0 whatever its
   * value, and otherwise only entries that are not 0 (entries equal to 0 are skipped).
   */
  ghost predicate Candidate(a: seq<int>, s: seq<int>)
  {
    && IncreasingRun(a, s)
    && (forall k :: 0 <= k < |s| ==> s[k] == 0 || a[s[k]] != 0)
  }

  /**
   * `x` ends a predecessor chain of length `k + 1` in `p`: following `p` from `x` visits
   * `k` strictly smaller indices with strictly smaller values of `a`. The chain arrives at
   * index 0, or, when `anyRoot` holds, at any index.
   */
  ghost predicate Chain(p: seq<int>, a: seq<int>, x: int, k: nat, anyRoot: bool)
    requires |p| == |a|
    decreases k
  {
    if k == 0 then x == 0 || (anyRoot && 0 <= x < |p|)
    else
      && 0 <= x < |p|
      && 0 <= p[x] < x
      && a[p[x]] < a[x]
      && Chain(p, a, p[x], k - 1, anyRoot)
  }

  /** Updating `p` above the chain's start leaves the chain intact. */
  lemma {:induction false} ChainFrame(p: seq<int>, a: seq<int>, x: int, k: nat, anyRoot: bool, i: int, y: int)
    requires |p| == |a| && 0 <= i < |p| && x < i
    requires Chain(p, a, x, k, anyRoot)
    ensures Chain(p[i := y], a, x, k, anyRoot)
    decreases k
  {
    if k > 0 {
      ChainFrame(p, a, p[x], k - 1, anyRoot, i, y);
    }
  }

  /** The values of `a` strictly increase along `r` (the pairwise form the binary search uses). */
  ghost predicate IncreasingValues(a: seq<int>, r: seq<int>)
  {
    && (forall k :: 0 <= k < |r| ==> 0 <= r[k] < |a|)
    && (forall k1, k2 :: 0 <= k1 < k2 < |r| ==> a[r[k1]] < a[r[k2]])
  }

  /** What the first phase of `getSequence` keeps after looking at the first `i` entries. */
  ghost predicate SequenceInv(a: seq<int>, p: seq<int>, result: seq<int>, i: int, anyRoot: bool)
  {
    && 0 <= i <= |a| == |p|
    && |result| >= 1 && (!anyRoot ==> result[0] == 0)
    && (i == 0 ==> result == [0])
    && (forall k :: 0 <= k < |result| ==> 0 <= result[k] && (result[k] < i || result[k] == 0))
    && (|result| > 1 ==> |a| > 0)
    && (|a| > 0 ==> IncreasingValues(a, result))
    && (forall k :: 0 <= k < |result| ==> Chain(p, a, result[k], k, anyRoot))
  }

  /** Appending `i` when its value exceeds that of the last entry. */
  lemma PushStep(a: seq<int>, p: seq<int>, result: seq<int>, i: int, anyRoot: bool)
    requires SequenceInv(a, p, result, i, anyRoot) && i < |a|
    requires a[result[|result| - 1]] < a[i]
    ensures SequenceInv(a, p[i := result[|result| - 1]], result + [i], i + 1, anyRoot)
  {
    var j := result[|result| - 1];
    var p1 := p[i := j];
    var r1 := result + [i];
    forall k | 0 <= k < |result| ensures Chain(p1, a, result[k], k, anyRoot) {
      ChainFrame(p, a, result[k], k, anyRoot, i, j);
    }
    ChainFrame(p, a, j, |result| - 1, anyRoot, i, j);
    assert Chain(p1, a, i, |result|, anyRoot);
    forall k | 0 <= k < |r1| ensures Chain(p1, a, r1[k], k, anyRoot) {
      if k < |result| { assert r1[k] == result[k]; }
    }
  }

  /** Replacing entry `u > 0` by `i` when `i`'s value falls strictly between its neighbours. */
  lemma ReplaceStep(a: seq<int>, p: seq<int>, result: seq<int>, i: int, u: int, anyRoot: bool)
    requires SequenceInv(a, p, result, i, anyRoot) && i < |a|
    requires 0 < u < |result|
    requires forall c :: 0 <= c < u ==> a[result[c]] < a[i]
    requires a[i] < a[result[u]]
    ensures SequenceInv(a, p[i := result[u - 1]], result[u := i], i + 1, anyRoot)
  {
    var prev := result[u - 1];
    var p1 := p[i := prev];
    forall k | 0 <= k < |result| ensures Chain(p1, a, result[k], k, anyRoot) {
      ChainFrame(p, a, result[k], k, anyRoot, i, prev);
    }
    assert Chain(p1, a, i, u, anyRoot);
  }

  /** Replacing entry 0 by `i` when `i`'s value is below every entry's (chains may start anywhere). */
  lemma ReplaceFirstStep(a: seq<int>, p: seq<int>, result: seq<int>, i: int)
    requires SequenceInv(a, p, result, i, true) && i < |a|
    requires a[i] < a[result[0]]
    ensures SequenceInv(a, p, result[0 := i], i + 1, true)
  {
    assert Chain(p, a, i, 0, true);
  }

  /**
   * `getSequence` (as written): patience sorting with a binary search, then the predecessor
   * array is walked back from the last entry. The result is a non-empty list of strictly
   * increasing indices along which `arr` strictly increases; it always starts at index 0, and
   * an empty input yields `[0]`. Because the replacement of `result[u]` sits inside the
   * `u > 0` test, slot 0 is never replaced: when `arr[0]` exceeds every later entry the result
   * is `[0]` however long an increasing run the rest holds. The method has no `modifies`
   * clause, so `arr` is left as it was.
   */
  method GetSequence(arr: array<int>) returns (result: seq<int>)
    ensures |result| >= 1 && result[0] == 0
    ensures arr.Length == 0 ==> result == [0]
    ensures arr.Length > 0 ==> IncreasingRun(arr[..], result)
    ensures (forall k :: 0 < k < arr.Length ==> arr[k] < arr[0]) ==> result == [0]
  {
    var len := arr.Length;
    var p := new int[len](i reads arr requires 0 <= i < len => arr[i]);
    ghost var a := arr[..];
    ghost var firstIsMax := forall k :: 0 < k < len ==> arr[k] < arr[0];
    result := [0];
    var i := 0;
    while i < len
      invariant SequenceInv(a, p[..], result, i, false)
      invariant firstIsMax ==> result == [0]
    {
      result := PatienceStepAsWritten(arr, p, a, result, i);
      i := i + 1;
    }
    result := WalkBack(p, a, result, false);
    if len > 0 {
      ChainsIncreasing(a, p[..], result, false);
    }
  }

  /**
   * One pass of the first loop of `getSequence` as written, looking at index `i`: an entry
   * equal to 0 is skipped, a larger value is appended, and otherwise the first entry not
   * below it is replaced, but only when that entry is not the first.
   */
  method PatienceStepAsWritten(arr: array<int>, p: array<int>, ghost a: seq<int>, result0: seq<int>, i: int)
    returns (result: seq<int>)
    requires arr != p && a == arr[..] && 0 <= i < arr.Length
    requires SequenceInv(a, p[..], result0, i, false)
    modifies p
    ensures SequenceInv(a, p[..], result, i + 1, false)
    ensures result0 == [0] && (i == 0 || arr[i] < arr[0]) ==> result == [0]
  {
    result := result0;
    var arrI := arr[i];
    if arrI == 0 {
      return;
    }
    var j := result[|result| - 1];
    if arr[j] < arrI {
      PushStep(a, p[..], result, i, false);
      p[i] := j;
      result := result + [i];
      return;
    }
    var u := Search(arr, result, arrI);
    if arrI < arr[result[u]] {
      if u > 0 {
        ReplaceStep(a, p[..], result, i, u, false);
        p[i] := result[u - 1];
        result := result[u := i];
      }
    }
  }

  /**
   * The binary search of `getSequence`: the first entry of `result` whose value is not below
   * `x`, given that the last one is not.
   */
  method Search(arr: array<int>, result: seq<int>, x: int) returns (u: int)
    requires |result| >= 1 && forall k :: 0 <= k < |result| ==> 0 <= result[k] < arr.Length
    requires arr[result[|result| - 1]] >= x
    requires forall k1, k2 :: 0 <= k1 < k2 < |result| ==> arr[result[k1]] < arr[result[k2]]
    ensures 0 <= u < |result|
    ensures forall c :: 0 <= c < u ==> arr[result[c]] < x
    ensures forall c :: u <= c < |result| ==> arr[result[c]] >= x
  {
    u := 0;
    var v := |result| - 1;
    while u < v
      invariant 0 <= u <= v <= |result| - 1
      invariant forall c :: 0 <= c < u ==> arr[result[c]] < x
      invariant forall c :: v <= c < |result| ==> arr[result[c]] >= x
    {
      var c := (u + v) / 2;
      if arr[result[c]] < x {
        u := c + 1;
      } else {
        v := c;
      }
    }
  }

  /**
   * Every candidate run whose last index is below `i` is no longer than `result`, and the
   * entry of `result` at its length has a value no larger than the run's last value (the
   * classic patience-sorting invariant).
   */
  ghost predicate TailsBound(a: seq<int>, result: seq<int>, i: int)
    requires IncreasingValues(a, result)
  {
    forall s :: Candidate(a, s) && 0 < |s| && s[|s| - 1] < i ==>
      |s| <= |result| && a[result[|s| - 1]] <= a[s[|s| - 1]]
  }

  /**
   * One step of the patience-sorting invariant: going from `r` to `r2` while looking at
   * index `i`, entries only get smaller, and every run extendable by `i` (of length `l`,
   * whose tail `r[l - 1]` is below `a[i]`) finds an entry at position `l` no larger than `a[i]`.
   */
  lemma BoundStep(a: seq<int>, r: seq<int>, r2: seq<int>, i: int)
    requires 0 <= i < |a|
    requires IncreasingValues(a, r) && IncreasingValues(a, r2) && |r| >= 1
    requires TailsBound(a, r, i)
    requires |r| <= |r2| && forall m :: 0 <= m < |r| ==> a[r2[m]] <= a[r[m]]
    requires (i > 0 && a[i] == 0) ||
             forall l :: 0 <= l <= |r| && (l == 0 || a[r[l - 1]] < a[i]) ==> l < |r2| && a[r2[l]] <= a[i]
    ensures TailsBound(a, r2, i + 1)
  {
    forall s | Candidate(a, s) && 0 < |s| && s[|s| - 1] < i + 1
      ensures |s| <= |r2| && a[r2[|s| - 1]] <= a[s[|s| - 1]]
    {
      var n := |s|;
      if s[n - 1] < i {
        assert n <= |r| && a[r[n - 1]] <= a[s[n - 1]];
      } else if n == 1 {
        assert s[0] == i;
        assert i == 0 || a[i] != 0;
      } else {
        assert s[n - 1] == i && a[i] != 0;
        var s1 := s[..n - 1];
        assert s1[n - 2] == s[n - 2];
        forall k | 0 < k < |s1| ensures s1[k - 1] < s1[k] && a[s1[k - 1]] < a[s1[k]] {
          assert s1[k - 1] == s[k - 1] && s1[k] == s[k];
        }
        assert Candidate(a, s1);
        assert s[n - 2] < s[n - 1];
        assert n - 1 <= |r| && a[r[n - 2]] <= a[s[n - 2]];
      }
    }
  }

  /** The patience-sorting invariant survives appending `i`. */
  lemma PushBound(a: seq<int>, r: seq<int>, i: int)
    requires 0 <= i < |a| && |r| >= 1
    requires IncreasingValues(a, r) && IncreasingValues(a, r + [i])
    requires TailsBound(a, r, i)
    requires a[r[|r| - 1]] < a[i]
    ensures TailsBound(a, r + [i], i + 1)
  {
    var r2 := r + [i];
    forall l | 0 <= l <= |r| && (l == 0 || a[r[l - 1]] < a[i]) ensures l < |r2| && a[r2[l]] <= a[i] {
      if l < |r| {
        assert l == |r| - 1 || a[r[l]] < a[r[|r| - 1]];
      }
    }
    BoundStep(a, r, r2, i);
  }

  /**
   * The patience-sorting invariant survives the binary-search branch: `u` is the first
   * entry whose value is not below `a[i]`, and that entry is replaced by `i` when larger.
   */
  lemma SearchBound(a: seq<int>, r: seq<int>, i: int, u: int, r2: seq<int>)
    requires 0 <= i < |a| && 0 <= u < |r|
    requires IncreasingValues(a, r) && IncreasingValues(a, r2)
    requires TailsBound(a, r, i)
    requires forall c :: 0 <= c < u ==> a[r[c]] < a[i]
    requires forall c :: u <= c < |r| ==> a[r[c]] >= a[i]
    requires r2 == if a[i] < a[r[u]] then r[u := i] else r
    ensures TailsBound(a, r2, i + 1)
  {
    var replaced := a[i] < a[r[u]];
    assert |r2| == |r|;
    forall m | 0 <= m < |r| ensures a[r2[m]] <= a[r[m]] {
      if replaced && m == u {
        assert r2[m] == i;
      } else {
        assert r2[m] == r[m];
      }
    }
    forall l | 0 <= l <= |r| && (l == 0 || a[r[l - 1]] < a[i]) ensures l < |r2| && a[r2[l]] <= a[i] {
      assert l <= u;
      if replaced && l == u {
        assert r2[l] == i;
      } else {
        assert r2[l] == r[l];
      }
    }
    BoundStep(a, r, r2, i);
  }

  /** The patience-sorting invariant survives skipping an entry equal to 0. */
  lemma SkipBound(a: seq<int>, r: seq<int>, i: int)
    requires 0 <= i < |a| && |r| >= 1
    requires IncreasingValues(a, r)
    requires TailsBound(a, r, i)
    requires a[i] == 0 && (i == 0 ==> r == [0])
    ensures TailsBound(a, r, i + 1)
  {
    BoundStep(a, r, r, i);
  }

  /** Once every index has been looked at, no candidate run is longer than `result`. */
  lemma TailsBoundLength(a: seq<int>, r: seq<int>)
    requires IncreasingValues(a, r) && TailsBound(a, r, |a|)
    ensures forall s :: Candidate(a, s) ==> |s| <= |r|
  {
    forall s | Candidate(a, s) ensures |s| <= |r| {
      if |s| > 0 {
        assert s[|s| - 1] < |a|;
      }
    }
  }

  /**
   * `getSequence` with the replacement of `result[u]` moved out of the `u > 0` test, as in
   * the algorithm it follows: besides being an increasing run, the result is now at least
   * as long as every increasing run that starts anywhere and skips the entries equal to 0.
   */
  method GetSequenceLongest(arr: array<int>) returns (result: seq<int>)
    ensures |result| >= 1
    ensures arr.Length == 0 ==> result == [0]
    ensures arr.Length > 0 ==> IncreasingRun(arr[..], result)
    ensures arr.Length > 0 ==> forall s :: Candidate(arr[..], s) ==> |s| <= |result|
  {
    var len := arr.Length;
    var p := new int[len](i reads arr requires 0 <= i < len => arr[i]);
    ghost var a := arr[..];
    result := [0];
    var i := 0;
    while i < len
      invariant SequenceInv(a, p[..], result, i, true)
      invariant len > 0 ==> TailsBound(a, result, i)
    {
      result := PatienceStep(arr, p, a, result, i);
      i := i + 1;
    }
    if len > 0 {
      TailsBoundLength(a, result);
    }
    result := WalkBack(p, a, result, true);
    if len > 0 {
      ChainsIncreasing(a, p[..], result, true);
    }
  }

  /** One pass of the first loop of `GetSequenceLongest`, looking at index `i`. */
  method PatienceStep(arr: array<int>, p: array<int>, ghost a: seq<int>, result0: seq<int>, i: int)
    returns (result: seq<int>)
    requires arr != p && a == arr[..] && 0 <= i < arr.Length
    requires SequenceInv(a, p[..], result0, i, true) && TailsBound(a, result0, i)
    modifies p
    ensures SequenceInv(a, p[..], result, i + 1, true) && TailsBound(a, result, i + 1)
  {
    result := result0;
    var arrI := arr[i];
    if arrI == 0 {
      SkipBound(a, result, i);
      return;
    }
    var j := result[|result| - 1];
    if arr[j] < arrI {
      PushStep(a, p[..], result, i, true);
      PushBound(a, result, i);
      p[i] := j;
      result := result + [i];
      return;
    }
    var u := Search(arr, result, arrI);
    if arrI < arr[result[u]] {
      if u > 0 {
        ReplaceStep(a, p[..], result, i, u, true);
        p[i] := result[u - 1];
      } else {
        ReplaceFirstStep(a, p[..], result, i);
      }
      result := result[u := i];
    }
    SearchBound(a, result0, i, u, result);
  }

  /**
   * The second phase of `getSequence`: overwrite the entries of `result` from the last one
   * down, following the predecessor array from the last entry.
   */
  method WalkBack(p: array<int>, ghost a: seq<int>, result0: seq<int>, ghost anyRoot: bool) returns (result: seq<int>)
    requires p.Length == |a| && |result0| >= 1
    requires Chain(p[..], a, result0[|result0| - 1], |result0| - 1, anyRoot)
    ensures |result| == |result0|
    ensures forall k :: 0 <= k < |result| ==> Chain(p[..], a, result[k], k, anyRoot)
    ensures forall k :: 0 < k < |result| ==> 0 <= result[k] < p.Length && result[k - 1] == p[result[k]]
  {
    result := result0;
    var L := |result|;
    var u := L;
    var v := result[u - 1];
    while u > 0
      invariant 0 <= u <= L == |result|
      invariant u > 0 ==> Chain(p[..], a, v, u - 1, anyRoot)
      invariant forall k :: u <= k < L ==> Chain(p[..], a, result[k], k, anyRoot)
      invariant forall k :: u < k < L ==> 0 <= result[k] < p.Length && result[k - 1] == p[result[k]]
      invariant 0 < u < L ==> v == p[result[u]]
    {
      u := u - 1;
      result := result[u := v];
      if u > 0 {
        v := p[v];
      }
    }
  }

  /** A list of linked chains is an increasing run. */
  lemma ChainsIncreasing(a: seq<int>, p: seq<int>, r: seq<int>, anyRoot: bool)
    requires |p| == |a| > 0 && |r| >= 1
    requires forall k :: 0 <= k < |r| ==> Chain(p, a, r[k], k, anyRoot)
    requires forall k :: 0 < k < |r| ==> 0 <= r[k] < |p| && r[k - 1] == p[r[k]]
    ensures IncreasingRun(a, r)
  {
    forall k | 0 <= k < |r| ensures 0 <= r[k] < |a| {
      assert Chain(p, a, r[k], k, anyRoot);
    }
    forall k | 0 < k < |r| ensures r[k - 1] < r[k] && a[r[k - 1]] < a[r[k]] {
      assert Chain(p, a, r[k], k, anyRoot);
    }
  }

  /** `[1, 2, 3]` is a candidate run of `[5, 1, 2, 3]`, three entries long. */
  lemma LongerRunExample()
    ensures Candidate([5, 1, 2, 3], [1, 2, 3])
  {
  }

  // ---------------------------------------------------------------------------------------
  // The middle section of the keyed diff: `source`, `keyIndex`, `moved`

  /**
   * Child keys are taken in the form `keyIndex` uses them, as property-key strings, which
   * is the only way the section below compares them.
   */
  type ChildKey = string

  /** Some child in positions `lo..hi` (inclusive) has key `key`. */
  predicate KeyInRange(keys: seq<ChildKey>, key: ChildKey, lo: int, hi: int)
  {
    exists i :: lo <= i <= hi && 0 <= i < |keys| && keys[i] == key
  }

  /** `k` is the last position in `lo..hi` whose key is `key`. */
  predicate IsLastIndex(keys: seq<ChildKey>, key: ChildKey, lo: int, hi: int, k: int)
  {
    && lo <= k <= hi && 0 <= k < |keys| && keys[k] == key
    && forall i :: k < i <= hi && i < |keys| ==> keys[i] != key
  }

  /** The keys in positions `lo..hi` are pairwise distinct. */
  predicate DistinctKeys(keys: seq<ChildKey>, lo: int, hi: int)
  {
    forall a, b :: lo <= a < b <= hi && 0 <= a && b < |keys| ==> keys[a] != keys[b]
  }

  /**
   * The index table: a key is present iff some new child in `newStart..newEnd` carries it,
   * and it maps to the last such position (later writes overwrite earlier ones).
   */
  method BuildKeyIndex(newKeys: seq<ChildKey>, newStart: int, newEnd: int) returns (keyIndex: map<ChildKey, int>)
    requires 0 <= newStart && newEnd < |newKeys|
    ensures forall key :: key in keyIndex <==> KeyInRange(newKeys, key, newStart, newEnd)
    ensures forall key :: key in keyIndex ==> IsLastIndex(newKeys, key, newStart, newEnd, keyIndex[key])
  {
    keyIndex := map[];
    var i := newStart;
    while i <= newEnd
      invariant newStart <= i && (i == newStart || i <= newEnd + 1)
      invariant forall key :: key in keyIndex <==> KeyInRange(newKeys, key, newStart, i - 1)
      invariant forall key :: key in keyIndex ==> IsLastIndex(newKeys, key, newStart, i - 1, keyIndex[key])
    {
      keyIndex := keyIndex[newKeys[i] := i];
      i := i + 1;
    }
    if newEnd < newStart {
      assert forall key :: !KeyInRange(newKeys, key, newStart, newEnd);
    }
  }

  /** What the diff does with one old child: patch it against new child `newIndex`, or unmount it. */
  datatype DiffStep = Patch(oldIndex: int, newIndex: int) | Unmount(oldIndex: int)

  /** The result of the section: the `source` table, the `moved` flag, and the steps taken in order. */
  datatype KeyedPlan = KeyedPlan(source: array<int>, moved: bool, steps: seq<DiffStep>)

  /** The new positions of the patched children, in the order the old children are visited. */
  function Matched(steps: seq<DiffStep>): (m: seq<int>)
    ensures |m| <= |steps|
  {
    if steps == [] then []
    else
      var last := steps[|steps| - 1];
      Matched(steps[..|steps| - 1]) + (if last.Patch? then [last.newIndex] else [])
  }

  /** Some later entry of `m` is smaller than an earlier one. */
  predicate OutOfOrder(m: seq<int>)
  {
    exists a, b :: 0 <= a < b < |m| && m[b] < m[a]
  }

  /**
   * Step `t` visits old child `j + t`. It is a patch exactly when fewer than `count + 1`
   * children were patched before it and the child's key occurs among the new children
   * `j..newEnd`, and it then targets the last new child with that key.
   */
  predicate StepOk(oldKeys: seq<ChildKey>, newKeys: seq<ChildKey>, j: int, newEnd: int, count: int,
                   steps: seq<DiffStep>, t: int)
    requires 0 <= t < |steps|
  {
    && 0 <= j + t < |oldKeys|
    && var key := oldKeys[j + t];
    var room := |Matched(steps[..t])| <= count;
    && steps[t].oldIndex == j + t
    && (steps[t].Patch? <==> room && KeyInRange(newKeys, key, j, newEnd))
    && (steps[t].Patch? ==> IsLastIndex(newKeys, key, j, newEnd, steps[t].newIndex))
  }

  /** Every step is as `StepOk` says, with `count` the number of unprocessed new children. */
  predicate StepsOk(oldKeys: seq<ChildKey>, newKeys: seq<ChildKey>, j: int, newEnd: int, steps: seq<DiffStep>)
  {
    var count := newEnd - j + 1;
    forall t :: 0 <= t < |steps| ==> StepOk(oldKeys, newKeys, j, newEnd, count, steps, t)
  }

  lemma StepAt(oldKeys: seq<ChildKey>, newKeys: seq<ChildKey>, j: int, newEnd: int, steps: seq<DiffStep>, t: int)
    requires StepsOk(oldKeys, newKeys, j, newEnd, steps) && 0 <= t < |steps|
    ensures StepOk(oldKeys, newKeys, j, newEnd, newEnd - j + 1, steps, t)
  {
  }

  /**
   * Entry `q` of `source` is -1 when no old child was patched against new child `j + q`,
   * and otherwise the last (largest) old index patched against it.
   */
  predicate SourceOk(source: seq<int>, j: int, steps: seq<DiffStep>)
  {
    forall q :: 0 <= q < |source| ==>
      || (source[q] == -1 && forall t :: 0 <= t < |steps| && steps[t].Patch? ==> steps[t].newIndex != j + q)
      || (&& Patch(source[q], j + q) in steps
          && forall t :: 0 <= t < |steps| && steps[t].Patch? && steps[t].newIndex == j + q ==>
               steps[t].oldIndex <= source[q])
  }

  lemma MatchedSnoc(steps: seq<DiffStep>, st: DiffStep)
    ensures Matched(steps + [st]) == Matched(steps) + (if st.Patch? then [st.newIndex] else [])
  {
    assert (steps + [st])[..|steps|] == steps;
  }

  /**
   * With `pos` the running maximum of `m` (0 while `m` is empty), appending `k` makes `m`
   * out of order exactly when it already was or `k < pos`.
   */
  lemma OutOfOrderSnoc(m: seq<int>, k: int, pos: int)
    requires k >= 0 && forall a :: 0 <= a < |m| ==> m[a] <= pos
    requires |m| == 0 ==> pos == 0
    requires |m| > 0 ==> pos in m
    ensures OutOfOrder(m + [k]) <==> OutOfOrder(m) || k < pos
  {
    var m1 := m + [k];
    if OutOfOrder(m1) && !OutOfOrder(m) {
      var a, b :| 0 <= a < b < |m1| && m1[b] < m1[a];
      assert b == |m|;
    }
    if k < pos {
      var a :| 0 <= a < |m| && m[a] == pos;
      assert m1[|m|] < m1[a];
    }
    if OutOfOrder(m) {
      var a, b :| 0 <= a < b < |m| && m[b] < m[a];
      assert m1[a] == m[a] && m1[b] == m[b];
    }
  }

  /**
   * The `source`/`keyIndex`/`moved` section of the keyed diff, for the unprocessed old
   * children `j..oldEnd` and new children `j..newEnd`. A negative count makes the `source`
   * allocation fail with a RangeError. Otherwise every old child is visited once, in order,
   * and patched or unmounted as `StepOk` says; `source` records the matches as `SourceOk`
   * says; and `moved` is set exactly when the matched new positions are out of order.
   */
  method PatchKeyedMiddle(oldKeys: seq<ChildKey>, newKeys: seq<ChildKey>, j: int, oldEnd: int, newEnd: int)
    returns (r: Result<KeyedPlan, JsError>)
    requires 0 <= j && -1 <= oldEnd < |oldKeys| && -1 <= newEnd < |newKeys|
    ensures r.Failure? <==> newEnd - j + 1 < 0
    ensures r.Failure? ==> r.error == RangeError
    ensures r.Success? ==> r.value.source.Length == newEnd - j + 1
    ensures r.Success? ==> |r.value.steps| == (if oldEnd < j then 0 else oldEnd - j + 1)
    ensures r.Success? ==> StepsOk(oldKeys, newKeys, j, newEnd, r.value.steps)
    ensures r.Success? ==> SourceOk(r.value.source[..], j, r.value.steps)
    ensures r.Success? ==> (r.value.moved <==> OutOfOrder(Matched(r.value.steps)))
  {
    var count := newEnd - j + 1;
    if count < 0 {
      return Failure(RangeError);
    }
    var source := new int[count](_ => -1);
    var oldStart := j;
    var newStart := j;
    var moved := false;
    var pos := 0;
    var keyIndex := BuildKeyIndex(newKeys, newStart, newEnd);
    var patched := 0;
    var steps: seq<DiffStep> := [];
    var i := oldStart;
    while i <= oldEnd
      invariant oldStart <= i && (i == oldStart || i <= oldEnd + 1)
      invariant |steps| == i - oldStart && source.Length == count
      invariant MiddleInv(oldKeys, newKeys, j, newEnd, steps, source[..], patched, pos, moved)
    {
      var step;
      step, patched, pos, moved := VisitOld(oldKeys, newKeys, j, newEnd, keyIndex, source, steps, patched, pos, moved, i);
      steps := steps + [step];
      i := i + 1;
    }
    assert StepsOk(oldKeys, newKeys, j, newEnd, steps);
    return Success(KeyedPlan(source, moved, steps));
  }

  /**
   * One pass of the loop over the old children, at old child `i`: when fewer than `count`
   * children have been patched and its key is among the new keys, it is patched against the
   * last new child with that key (recorded in `source`, with `moved` and `pos` updated);
   * otherwise it is unmounted.
   */
  method VisitOld(oldKeys: seq<ChildKey>, newKeys: seq<ChildKey>, j: int, newEnd: int, keyIndex: map<ChildKey, int>,
                  source: array<int>, steps: seq<DiffStep>, patched0: int, pos0: int, moved0: bool, i: int)
    returns (step: DiffStep, patched: int, pos: int, moved: bool)
    requires MiddleInv(oldKeys, newKeys, j, newEnd, steps, source[..], patched0, pos0, moved0)
    requires i == j + |steps| < |oldKeys| && source.Length == newEnd - j + 1
    requires forall key :: key in keyIndex <==> KeyInRange(newKeys, key, j, newEnd)
    requires forall key :: key in keyIndex ==> IsLastIndex(newKeys, key, j, newEnd, keyIndex[key])
    modifies source
    ensures MiddleInv(oldKeys, newKeys, j, newEnd, steps + [step], source[..], patched, pos, moved)
  {
    ghost var src := source[..];
    patched, pos, moved := patched0, pos0, moved0;
    var key := oldKeys[i];
    if patched <= source.Length && key in keyIndex {
      var k := keyIndex[key];
      PatchStep(oldKeys, newKeys, j, newEnd, steps, src, patched, pos, moved, i, k);
      patched := patched + 1;
      source[k - j] := i;
      if k < pos {
        moved := true;
      } else {
        pos := k;
      }
      return Patch(i, k), patched, pos, moved;
    }
    UnmountStep(oldKeys, newKeys, j, newEnd, steps, src, patched, pos, moved, i);
    return Unmount(i), patched, pos, moved;
  }

  /** What the loop over the old children keeps. */
  ghost predicate MiddleInv(oldKeys: seq<ChildKey>, newKeys: seq<ChildKey>, j: int, newEnd: int,
                            steps: seq<DiffStep>, source: seq<int>, patched: int, pos: int, moved: bool)
  {
    var m := Matched(steps);
    && 0 <= j && (|steps| > 0 ==> j + |steps| <= |oldKeys|) && -1 <= newEnd < |newKeys|
    && |source| == newEnd - j + 1
    && StepsOk(oldKeys, newKeys, j, newEnd, steps)
    && patched == |m|
    && (forall a :: 0 <= a < |m| ==> j <= m[a] <= pos)
    && (|m| == 0 ==> pos == 0)
    && (|m| > 0 ==> pos in m)
    && (moved <==> OutOfOrder(m))
    && (forall t :: 0 <= t < |steps| && steps[t].Patch? ==> steps[t].oldIndex < j + |steps|)
    && SourceOk(source, j, steps)
  }

  /** Patching old child `i` (the next one) against new child `k`, the last with its key. */
  lemma PatchStep(oldKeys: seq<ChildKey>, newKeys: seq<ChildKey>, j: int, newEnd: int,
                  steps: seq<DiffStep>, source: seq<int>, patched: int, pos: int, moved: bool, i: int, k: int)
    requires MiddleInv(oldKeys, newKeys, j, newEnd, steps, source, patched, pos, moved)
    requires i == j + |steps| < |oldKeys| && patched <= newEnd - j + 1
    requires IsLastIndex(newKeys, oldKeys[i], j, newEnd, k)
    ensures 0 <= k - j < |source|
    ensures MiddleInv(oldKeys, newKeys, j, newEnd, steps + [Patch(i, k)], source[k - j := i], patched + 1,
                      if k < pos then pos else k, moved || k < pos)
  {
    var st := Patch(i, k);
    var steps1 := steps + [st];
    MatchedSnoc(steps, st);
    OutOfOrderSnoc(Matched(steps), k, pos);
    assert steps1[..|steps|] == steps;
    assert StepOk(oldKeys, newKeys, j, newEnd, newEnd - j + 1, steps1, |steps|);
    StepsSnoc(oldKeys, newKeys, j, newEnd, steps, st);
    var src1 := source[k - j := i];
    forall q | 0 <= q < |src1|
      ensures || (src1[q] == -1 && forall t :: 0 <= t < |steps1| && steps1[t].Patch? ==> steps1[t].newIndex != j + q)
              || (&& Patch(src1[q], j + q) in steps1
                  && forall t :: 0 <= t < |steps1| && steps1[t].Patch? && steps1[t].newIndex == j + q ==>
                       steps1[t].oldIndex <= src1[q])
    {
      if q == k - j {
        assert steps1[|steps|] == Patch(src1[q], j + q);
      } else {
        assert src1[q] == source[q];
        if src1[q] != -1 || exists t :: 0 <= t < |steps| && steps[t].Patch? && steps[t].newIndex == j + q {
          assert Patch(src1[q], j + q) in steps;
        }
      }
    }
  }

  /** Unmounting old child `i` (the next one), whose key is absent or when there is no room. */
  lemma UnmountStep(oldKeys: seq<ChildKey>, newKeys: seq<ChildKey>, j: int, newEnd: int,
                    steps: seq<DiffStep>, source: seq<int>, patched: int, pos: int, moved: bool, i: int)
    requires MiddleInv(oldKeys, newKeys, j, newEnd, steps, source, patched, pos, moved)
    requires i == j + |steps| < |oldKeys|
    requires patched > newEnd - j + 1 || !KeyInRange(newKeys, oldKeys[i], j, newEnd)
    ensures MiddleInv(oldKeys, newKeys, j, newEnd, steps + [Unmount(i)], source, patched, pos, moved)
  {
    var st := Unmount(i);
    var steps1 := steps + [st];
    MatchedSnoc(steps, st);
    assert Matched(steps1) == Matched(steps);
    assert steps1[..|steps|] == steps;
    assert StepOk(oldKeys, newKeys, j, newEnd, newEnd - j + 1, steps1, |steps|);
    StepsSnoc(oldKeys, newKeys, j, newEnd, steps, st);
    forall q | 0 <= q < |source|
      ensures || (source[q] == -1 && forall t :: 0 <= t < |steps1| && steps1[t].Patch? ==> steps1[t].newIndex != j + q)
              || (&& Patch(source[q], j + q) in steps1
                  && forall t :: 0 <= t < |steps1| && steps1[t].Patch? && steps1[t].newIndex == j + q ==>
                       steps1[t].oldIndex <= source[q])
    {
      if source[q] != -1 || exists t :: 0 <= t < |steps| && steps[t].Patch? && steps[t].newIndex == j + q {
        assert Patch(source[q], j + q) in steps;
      }
    }
  }

  /** Appending a step leaves the earlier steps' prefixes, and so their `StepOk`, as they were. */
  lemma StepsSnoc(oldKeys: seq<ChildKey>, newKeys: seq<ChildKey>, j: int, newEnd: int,
                  steps: seq<DiffStep>, st: DiffStep)
    requires StepsOk(oldKeys, newKeys, j, newEnd, steps)
    requires StepOk(oldKeys, newKeys, j, newEnd, newEnd - j + 1, steps + [st], |steps|)
    ensures StepsOk(oldKeys, newKeys, j, newEnd, steps + [st])
  {
    var count := newEnd - j + 1;
    forall t | 0 <= t < |steps| ensures StepOk(oldKeys, newKeys, j, newEnd, count, steps + [st], t) {
      assert (steps + [st])[..t] == steps[..t];
      assert StepOk(oldKeys, newKeys, j, newEnd, count, steps, t);
    }
  }

  /** A list of pairwise distinct integers drawn from `lo..hi` has at most `hi - lo + 1` entries. */
  lemma {:induction false} Pigeonhole(m: seq<int>, lo: int, hi: int)
    requires forall a :: 0 <= a < |m| ==> lo <= m[a] <= hi
    requires forall a, b :: 0 <= a < b < |m| ==> m[a] != m[b]
    ensures |m| == 0 || |m| <= hi - lo + 1
    decreases |m|
  {
    if |m| == 1 {
      assert lo <= m[0] <= hi;
    } else if |m| > 1 {
      var n := |m| - 1;
      var x := m[n];
      var m1 := seq(n, a requires 0 <= a < n => if m[a] > x then m[a] - 1 else m[a]);
      assert |m1| == n;
      forall a, b | 0 <= a < b < |m1| ensures m1[a] != m1[b] {
        assert m[a] != m[b] && m[a] != x && m[b] != x;
      }
      forall a | 0 <= a < |m1| ensures lo <= m1[a] <= hi - 1 {
        assert m[a] != x;
      }
      Pigeonhole(m1, lo, hi - 1);
    }
  }

  /**
   * With distinct old keys, the new positions patched so far are distinct, lie in
   * `j..newEnd`, and each comes from an earlier step.
   */
  lemma {:induction false} MatchedDistinct(oldKeys: seq<ChildKey>, newKeys: seq<ChildKey>, j: int, newEnd: int,
                                           steps: seq<DiffStep>, t: int)
    requires StepsOk(oldKeys, newKeys, j, newEnd, steps) && 0 <= t <= |steps|
    requires DistinctKeys(oldKeys, j, j + |steps| - 1)
    ensures forall a :: 0 <= a < |Matched(steps[..t])| ==> j <= Matched(steps[..t])[a] <= newEnd
    ensures forall a :: 0 <= a < |Matched(steps[..t])| ==>
      exists u :: 0 <= u < t && steps[u].Patch? && steps[u].newIndex == Matched(steps[..t])[a]
    ensures forall a, b :: 0 <= a < b < |Matched(steps[..t])| ==> Matched(steps[..t])[a] != Matched(steps[..t])[b]
    decreases t
  {
    if t == 0 {
      assert steps[..t] == [];
      assert Matched(steps[..t]) == [];
    } else {
      MatchedDistinct(oldKeys, newKeys, j, newEnd, steps, t - 1);
      var prev := steps[..t - 1];
      assert steps[..t][..t - 1] == prev;
      var m0 := Matched(prev);
      var st := steps[t - 1];
      assert Matched(steps[..t]) == m0 + (if st.Patch? then [st.newIndex] else []);
      assert StepOk(oldKeys, newKeys, j, newEnd, newEnd - j + 1, steps, t - 1);
      var m := Matched(steps[..t]);
      forall a | 0 <= a < |m|
        ensures exists u :: 0 <= u < t && steps[u].Patch? && steps[u].newIndex == m[a]
      {
        if a < |m0| {
          assert m[a] == m0[a];
          var u :| 0 <= u < t - 1 && steps[u].Patch? && steps[u].newIndex == m0[a];
          assert 0 <= u < t;
        } else {
          assert steps[t - 1].Patch? && steps[t - 1].newIndex == m[a];
        }
      }
      if st.Patch? {
        forall a | 0 <= a < |m0| ensures m0[a] != st.newIndex {
          var u :| 0 <= u < t - 1 && steps[u].Patch? && steps[u].newIndex == m0[a];
          assert StepOk(oldKeys, newKeys, j, newEnd, newEnd - j + 1, steps, u);
          assert oldKeys[j + u] != oldKeys[j + t - 1];
        }
      }
    }
  }

  /**
   * With distinct old keys and distinct new keys, the section computes exactly the
   * intended table: an old child is patched iff its key occurs among the new children,
   * `source[q]` is the old index carrying new child `j + q`'s key, and -1 iff there is none.
   */
  lemma DistinctKeysExact(oldKeys: seq<ChildKey>, newKeys: seq<ChildKey>, j: int, oldEnd: int, newEnd: int,
                          steps: seq<DiffStep>, source: seq<int>)
    requires 0 <= j && -1 <= oldEnd < |oldKeys| && -1 <= newEnd < |newKeys|
    requires |steps| == (if oldEnd < j then 0 else oldEnd - j + 1) && |source| == newEnd - j + 1
    requires StepsOk(oldKeys, newKeys, j, newEnd, steps) && SourceOk(source, j, steps)
    requires DistinctKeys(oldKeys, j, oldEnd) && DistinctKeys(newKeys, j, newEnd)
    ensures forall t :: 0 <= t < |steps| ==> (steps[t].Patch? <==> KeyInRange(newKeys, oldKeys[j + t], j, newEnd))
    ensures forall q, i :: 0 <= q < |source| && j <= i <= oldEnd ==> (source[q] == i <==> oldKeys[i] == newKeys[j + q])
    ensures forall q :: 0 <= q < |source| ==> (source[q] == -1 <==> !KeyInRange(oldKeys, newKeys[j + q], j, oldEnd))
  {
    var count := newEnd - j + 1;
    forall t | 0 <= t < |steps| ensures steps[t].Patch? <==> KeyInRange(newKeys, oldKeys[j + t], j, newEnd) {
      StepAt(oldKeys, newKeys, j, newEnd, steps, t);
      MatchedDistinct(oldKeys, newKeys, j, newEnd, steps, t);
      Pigeonhole(Matched(steps[..t]), j, newEnd);
    }
    forall q, i | 0 <= q < |source| && j <= i <= oldEnd ensures source[q] == i <==> oldKeys[i] == newKeys[j + q] {
      var t := i - j;
      assert 0 <= t < |steps|;
      StepAt(oldKeys, newKeys, j, newEnd, steps, t);
      if source[q] == i {
        assert Patch(i, j + q) in steps;
        var u :| 0 <= u < |steps| && steps[u] == Patch(i, j + q);
        StepAt(oldKeys, newKeys, j, newEnd, steps, u);
      }
      if oldKeys[i] == newKeys[j + q] {
        assert KeyInRange(newKeys, oldKeys[i], j, newEnd);
        assert steps[t] == Patch(i, j + q);
        assert source[q] != -1;
        var u :| 0 <= u < |steps| && steps[u] == Patch(source[q], j + q);
        StepAt(oldKeys, newKeys, j, newEnd, steps, u);
      }
    }
    forall q | 0 <= q < |source| ensures source[q] == -1 <==> !KeyInRange(oldKeys, newKeys[j + q], j, oldEnd) {
      if KeyInRange(oldKeys, newKeys[j + q], j, oldEnd) {
        var i :| j <= i <= oldEnd && 0 <= i < |oldKeys| && oldKeys[i] == newKeys[j + q];
        assert source[q] == i;
      }
      if source[q] != -1 {
        var u :| 0 <= u < |steps| && steps[u] == Patch(source[q], j + q);
        StepAt(oldKeys, newKeys, j, newEnd, steps, u);
      }
    }
  }

  // ---------------------------------------------------------------------------------------
  // Component props: hasPropsChanged and resolveProps

  /** A plain object's own enumerable string-keyed properties, in iteration order. */
  type PropsList = seq<(string, Value)>

  /** No property name occurs twice (true of every object's own keys). */
  predicate DistinctNames(o: PropsList)
  {
    forall a, b :: 0 <= a < b < |o| ==> o[a].0 != o[b].0
  }

  /** `Object.keys`. */
  function KeysOf(o: PropsList): (keys: seq<string>)
    ensures |keys| == |o| && forall i :: 0 <= i < |o| ==> keys[i] == o[i].0
  {
    seq(|o|, i requires 0 <= i < |o| => o[i].0)
  }

  /** `o[key]` on a plain object: the property's value, or `undefined` when it is absent. */
  function Lookup(o: PropsList, key: string): Value
  {
    if o == [] then Undefined
    else if o[0].0 == key then o[0].1
    else Lookup(o[1..], key)
  }

  lemma {:induction false} LookupAt(o: PropsList, i: int)
    requires DistinctNames(o) && 0 <= i < |o|
    ensures Lookup(o, o[i].0) == o[i].1
  {
    if i > 0 {
      assert o[0].0 != o[i].0;
      assert o[1..][i - 1] == o[i];
      LookupAt(o[1..], i - 1);
    }
  }

  lemma {:induction false} LookupMissing(o: PropsList, key: string)
    requires forall i :: 0 <= i < |o| ==> o[i].0 != key
    ensures Lookup(o, key) == Undefined
  {
    if o != [] {
      assert o[0].0 != key;
      forall i | 0 <= i < |o[1..]| ensures o[1..][i].0 != key {
        assert o[1..][i] == o[i + 1];
      }
      LookupMissing(o[1..], key);
    }
  }

  /** `Lookup` finds a present key at some position. */
  lemma {:induction false} LookupFound(o: PropsList, key: string)
    requires Lookup(o, key) != Undefined
    ensures exists i :: 0 <= i < |o| && o[i].0 == key && o[i].1 == Lookup(o, key)
  {
    if o[0].0 != key {
      LookupFound(o[1..], key);
      var i :| 0 <= i < |o[1..]| && o[1..][i].0 == key && o[1..][i].1 == Lookup(o[1..], key);
      assert o[i + 1] == o[1..][i];
    }
  }

  /**
   * The test `hasPropsChanged` performs: the key counts differ, or some key of `next`
   * holds a value that is not `===` the value `prev` holds under that key.
   */
  predicate PropsChanged(prev: PropsList, next: PropsList)
  {
    || |next| != |prev|
    || exists i :: 0 <= i < |next| && !StrictEquals(next[i].1, Lookup(prev, next[i].0))
  }

  /**
   * `hasPropsChanged`: compares the key counts, then scans `next`'s keys for a changed value.
   * `None` stands for a vnode created without props (`undefined`), on which `Object.keys`
   * throws a TypeError before anything is compared.
   */
  method HasPropsChanged(prevProps: Option<PropsList>, nextProps: Option<PropsList>)
    returns (r: Result<bool, JsError>)
    requires prevProps.Some? ==> DistinctNames(prevProps.value)
    requires nextProps.Some? ==> DistinctNames(nextProps.value)
    ensures r.Failure? <==> prevProps.None? || nextProps.None?
    ensures r.Failure? ==> r.error == TypeError
    ensures r.Success? ==> (r.value <==> PropsChanged(prevProps.value, nextProps.value))
  {
    if nextProps.None? || prevProps.None? {
      return Failure(TypeError);
    }
    var prev, next := prevProps.value, nextProps.value;
    var nextKeys := KeysOf(next);
    if |nextKeys| != |KeysOf(prev)| {
      return Success(true);
    }
    var i := 0;
    while i < |nextKeys|
      invariant 0 <= i <= |nextKeys|
      invariant forall i2 :: 0 <= i2 < i ==> StrictEquals(next[i2].1, Lookup(prev, next[i2].0))
    {
      var key := nextKeys[i];
      LookupAt(next, i);
      if !StrictEquals(Lookup(next, key), Lookup(prev, key)) {
        return Success(true);
      }
      i := i + 1;
    }
    return Success(false);
  }

  /** The props a vnode carries, with none counting as the empty object. */
  function PropsOrEmpty(props: Option<PropsList>): PropsList
  {
    if props.Some? then props.value else []
  }

  /**
   * `hasPropsChanged` as evidently intended for vnodes created without props: they count as
   * having no props, so the test never throws, and two prop-less vnodes are unchanged.
   */
  method HasPropsChangedDefaulted(prevProps: Option<PropsList>, nextProps: Option<PropsList>)
    returns (changed: bool)
    requires prevProps.Some? ==> DistinctNames(prevProps.value)
    requires nextProps.Some? ==> DistinctNames(nextProps.value)
    ensures changed <==> PropsChanged(PropsOrEmpty(prevProps), PropsOrEmpty(nextProps))
    ensures prevProps.None? && nextProps.None? ==> !changed
    ensures prevProps.None? && nextProps.Some? ==> (changed <==> nextProps.value != [])
  {
    var r := HasPropsChanged(Some(PropsOrEmpty(prevProps)), Some(PropsOrEmpty(nextProps)));
    changed := r.value;
  }

  /** Every name of `a` is a name of `b`. */
  ghost predicate NamesIn(a: PropsList, b: PropsList)
  {
    forall i :: 0 <= i < |a| ==> exists i2 :: 0 <= i2 < |b| && b[i2].0 == a[i].0
  }

  /** Holding every entry of `a`, `b` holds every name of `a`. */
  lemma EntriesNamesIn(a: PropsList, b: PropsList)
    requires forall e :: e in a ==> e in b
    ensures NamesIn(a, b)
  {
    forall i | 0 <= i < |a| ensures exists i2 :: 0 <= i2 < |b| && b[i2].0 == a[i].0 {
      assert a[i] in b;
      var i2 :| 0 <= i2 < |b| && b[i2] == a[i];
      assert b[i2].0 == a[i].0;
    }
    assert forall i :: 0 <= i < |a| ==> exists i2 :: 0 <= i2 < |b| && b[i2].0 == a[i].0;
  }

  /** Position of `key` among the names of `o`, which must hold it. */
  ghost function NameIndex(o: PropsList, key: string): (i: int)
    requires exists i :: 0 <= i < |o| && o[i].0 == key
    ensures 0 <= i < |o| && o[i].0 == key
  {
    var i :| 0 <= i < |o| && o[i].0 == key; i
  }

  /**
   * When every name of `a` occurs in `b` and `b` has a name `a` lacks, `a` has fewer
   * properties than `b`.
   */
  lemma NamesFewer(a: PropsList, b: PropsList, extra: int)
    requires DistinctNames(a) && DistinctNames(b)
    requires NamesIn(a, b)
    requires 0 <= extra < |b| && forall i :: 0 <= i < |a| ==> a[i].0 != b[extra].0
    ensures |a| < |b|
  {
    var m := seq(|a|, i requires 0 <= i < |a| => NameIndex(b, a[i].0)) + [extra];
    forall x, y | 0 <= x < y < |m| ensures m[x] != m[y] {
      if y < |a| {
        assert b[m[x]].0 == a[x].0 && b[m[y]].0 == a[y].0;
      } else {
        assert b[m[x]].0 == a[x].0;
      }
    }
    Pigeonhole(m, 0, |b| - 1);
  }

  /** A `NaN` prop value is never `===` anything, so its presence in `next` always reports a change. */
  lemma NaNPropChanged(prev: PropsList, next: PropsList, i: int)
    requires 0 <= i < |next| && next[i].1 == Num(NaN)
    ensures PropsChanged(prev, next)
  {
    assert !StrictEquals(next[i].1, Lookup(prev, next[i].0));
  }

  /** Objects holding the same entries, none of them `NaN`, are reported unchanged. */
  lemma SamePropsUnchanged(prev: PropsList, next: PropsList)
    requires DistinctNames(prev) && DistinctNames(next)
    requires forall e :: e in prev <==> e in next
    requires forall i :: 0 <= i < |next| ==> next[i].1 != Num(NaN)
    ensures !PropsChanged(prev, next)
  {
    forall i | 0 <= i < |next| ensures StrictEquals(next[i].1, Lookup(prev, next[i].0)) {
      assert next[i] in prev;
      var i2 :| 0 <= i2 < |prev| && prev[i2] == next[i];
      LookupAt(prev, i2);
    }
    EntriesNamesIn(next, prev);
    EntriesNamesIn(prev, next);
    SubsetNotLonger(next, prev);
    SubsetNotLonger(prev, next);
  }

  /** When every name of `a` occurs in `b`, `a` has no more properties than `b`. */
  lemma SubsetNotLonger(a: PropsList, b: PropsList)
    requires DistinctNames(a) && DistinctNames(b)
    requires NamesIn(a, b)
    ensures |a| <= |b|
  {
    var m := seq(|a|, i requires 0 <= i < |a| => NameIndex(b, a[i].0));
    forall x, y | 0 <= x < y < |m| ensures m[x] != m[y] {
      assert b[m[x]].0 == a[x].0 && b[m[y]].0 == a[y].0;
    }
    Pigeonhole(m, 0, |b| - 1);
  }

  /**
   * Conversely, when `next` holds no `undefined` and no `NaN` values, an unchanged report
   * means both objects hold exactly the same entries. (With an `undefined` value the test
   * cannot tell a key holding `undefined` from an absent one.)
   */
  lemma UnchangedSameProps(prev: PropsList, next: PropsList)
    requires DistinctNames(prev) && DistinctNames(next)
    requires forall i :: 0 <= i < |next| ==> next[i].1 != Undefined
    requires !PropsChanged(prev, next)
    ensures forall e :: e in prev <==> e in next
  {
    forall i | 0 <= i < |next| ensures next[i] in prev && exists i2 :: 0 <= i2 < |prev| && prev[i2].0 == next[i].0 {
      assert StrictEquals(next[i].1, Lookup(prev, next[i].0));
      LookupFound(prev, next[i].0);
    }
    assert forall i :: 0 <= i < |next| ==> exists i2 :: 0 <= i2 < |prev| && prev[i2].0 == next[i].0;
    assert NamesIn(next, prev);
    forall e | e in prev ensures e in next {
      var p :| 0 <= p < |prev| && prev[p] == e;
      if forall i :: 0 <= i < |next| ==> next[i].0 != e.0 {
        NamesFewer(next, prev, p);
      } else {
        var i :| 0 <= i < |next| && next[i].0 == e.0;
        assert StrictEquals(next[i].1, Lookup(prev, next[i].0));
        LookupAt(prev, p);
      }
    }
  }

  /** `key.startsWith('on')`. */
  predicate StartsWithOn(key: string)
  {
    |key| >= 2 && key[..2] == "on"
  }

  /**
   * Where `resolveProps` sends a key: to `props` when the component declares it or it
   * starts with `on`. `options` is `None` when the component has no `props` option.
   */
  predicate IsPropKey(declared: set<string>, key: string)
  {
    key in declared || StartsWithOn(key)
  }

  /** The entries of `data`, in order, whose keys go to `props` (`toProps`) or to `attrs`. */
  function Route(declared: set<string>, data: PropsList, toProps: bool): (r: PropsList)
    ensures |r| <= |data|
  {
    if data == [] then []
    else
      var rest := Route(declared, data[..|data| - 1], toProps);
      var e := data[|data| - 1];
      if IsPropKey(declared, e.0) == toProps then rest + [e] else rest
  }

  /**
   * `resolveProps`: walks `propsData` and copies each entry into `props` or `attrs`.
   * The test `key in options` throws a TypeError when the component has no `props`
   * option, as soon as there is a key to test.
   */
  method ResolveProps(options: Option<set<string>>, propsData: PropsList)
    returns (r: Result<(PropsList, PropsList), JsError>)
    requires DistinctNames(propsData)
    ensures r.Failure? <==> options.None? && |propsData| > 0
    ensures r.Failure? ==> r.error == TypeError
    ensures r.Success? && options.Some? ==>
      r.value == (Route(options.value, propsData, true), Route(options.value, propsData, false))
    ensures options.None? && |propsData| == 0 ==> r == Success(([], []))
  {
    var props: PropsList := [];
    var attrs: PropsList := [];
    var i := 0;
    while i < |propsData|
      invariant 0 <= i <= |propsData|
      invariant options.None? ==> i == 0 && props == [] && attrs == []
      invariant options.Some? ==> props == Route(options.value, propsData[..i], true)
      invariant options.Some? ==> attrs == Route(options.value, propsData[..i], false)
    {
      var key := propsData[i].0;
      if options.None? {
        return Failure(TypeError);
      }
      assert propsData[..i + 1][..i] == propsData[..i];
      if key in options.value || StartsWithOn(key) {
        props := props + [propsData[i]];
      } else {
        attrs := attrs + [propsData[i]];
      }
      i := i + 1;
    }
    assert propsData[..|propsData|] == propsData;
    return Success((props, attrs));
  }

  /**
   * The split `resolveProps` makes: every entry of `data` lands in exactly one of the two
   * parts, with its value, and in `props` exactly when its key is a prop key.
   */
  lemma {:induction false} RoutePartition(declared: set<string>, data: PropsList)
    ensures forall e :: e in Route(declared, data, true) <==> e in data && IsPropKey(declared, e.0)
    ensures forall e :: e in Route(declared, data, false) <==> e in data && !IsPropKey(declared, e.0)
    ensures |Route(declared, data, true)| + |Route(declared, data, false)| == |data|
  {
    if data != [] {
      var init := data[..|data| - 1];
      RoutePartition(declared, init);
      assert data == init + [data[|data| - 1]];
    }
  }

  /** Resolved props and attrs keep object shape: no name occurs twice in either. */
  lemma {:induction false} RouteDistinct(declared: set<string>, data: PropsList, toProps: bool)
    requires DistinctNames(data)
    ensures DistinctNames(Route(declared, data, toProps))
    ensures forall e :: e in Route(declared, data, toProps) ==> e in data
  {
    if data != [] {
      var init := data[..|data| - 1];
      assert DistinctNames(init);
      RouteDistinct(declared, init, toProps);
      var rest := Route(declared, init, toProps);
      var e := data[|data| - 1];
      forall x | x in rest ensures x.0 != e.0 {
        var p :| 0 <= p < |init| && init[p] == x;
        assert data[p] == x;
      }
    }
  }

  /** The names a component declares, none when it has no `props` option. */
  function Declared(options: Option<set<string>>): set<string>
  {
    if options.Some? then options.value else {}
  }

  /**
   * `resolveProps` as evidently intended for a component without a `props` option: it
   * then declares nothing, so only the `on` keys go to `props` and the rest to `attrs`.
   */
  method ResolvePropsDefaulted(options: Option<set<string>>, propsData: PropsList)
    returns (props: PropsList, attrs: PropsList)
    requires DistinctNames(propsData)
    ensures forall e :: e in props <==> e in propsData && IsPropKey(Declared(options), e.0)
    ensures forall e :: e in attrs <==> e in propsData && !IsPropKey(Declared(options), e.0)
    ensures |props| + |attrs| == |propsData|
  {
    var r := ResolveProps(Some(Declared(options)), propsData);
    props, attrs := r.value.0, r.value.1;
    RoutePartition(Declared(options), propsData);
  }
}
