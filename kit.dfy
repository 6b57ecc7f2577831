/**
 * Small utilities (pkg/kit/default.go): membership tests that sort the
 * caller's slice in place and then binary-search it, and string joining.
 */
module Kit {

  /** `leq` is a total order: reflexive, antisymmetric, transitive and total. */
  ghost predicate TotalOrder<T(!new)>(leq: (T, T) -> bool) {
    && (forall x :: leq(x, x))
    && (forall x, y :: leq(x, y) && leq(y, x) ==> x == y)
    && (forall x, y, z :: leq(x, y) && leq(y, z) ==> leq(x, z))
    && (forall x, y :: leq(x, y) || leq(y, x))
  }

  ghost predicate Sorted<T>(s: seq<T>, leq: (T, T) -> bool) {
    forall i, j :: 0 <= i < j < |s| ==> leq(s[i], s[j])
  }

  /** Ascending order on `int`, as `sort.Ints` uses. */
  predicate IntLeq(x: int, y: int) {
    x <= y
  }

  /**
   * Ascending order on strings, as `sort.Strings` uses: lexicographic,
   * element by element (byte order of UTF-8 agrees with code-point order).
   */
  predicate StrLeq(a: string, b: string) {
    if a == [] then true
    else if b == [] then false
    else if a[0] != b[0] then a[0] < b[0]
    else StrLeq(a[1..], b[1..])
  }

  lemma IntLeqTotalOrder()
    ensures TotalOrder(IntLeq)
  {
  }

  lemma {:induction false} StrLeqReflexive(a: string)
    ensures StrLeq(a, a)
  {
    if a != [] {
      StrLeqReflexive(a[1..]);
    }
  }

  lemma {:induction false} StrLeqAntisymmetric(a: string, b: string)
    requires StrLeq(a, b) && StrLeq(b, a)
    ensures a == b
  {
    if a != [] && b != [] {
      StrLeqAntisymmetric(a[1..], b[1..]);
      assert a == [a[0]] + a[1..] && b == [b[0]] + b[1..];
    }
  }

  lemma {:induction false} StrLeqTransitive(a: string, b: string, c: string)
    requires StrLeq(a, b) && StrLeq(b, c)
    ensures StrLeq(a, c)
  {
    if a != [] && b != [] && c != [] && a[0] == b[0] && b[0] == c[0] {
      StrLeqTransitive(a[1..], b[1..], c[1..]);
    }
  }

  lemma {:induction false} StrLeqTotal(a: string, b: string)
    ensures StrLeq(a, b) || StrLeq(b, a)
  {
    if a != [] && b != [] && a[0] == b[0] {
      StrLeqTotal(a[1..], b[1..]);
    }
  }

  /** Lexicographic string order is a total order. */
  lemma StrLeqTotalOrder()
    ensures TotalOrder(StrLeq)
  {
    forall a ensures StrLeq(a, a) {
      StrLeqReflexive(a);
    }
    forall a, b | StrLeq(a, b) && StrLeq(b, a) ensures a == b {
      StrLeqAntisymmetric(a, b);
    }
    forall a, b, c | StrLeq(a, b) && StrLeq(b, c) ensures StrLeq(a, c) {
      StrLeqTransitive(a, b, c);
    }
    forall a, b ensures StrLeq(a, b) || StrLeq(b, a) {
      StrLeqTotal(a, b);
    }
  }

  /** Sorts `a` in place (the role of `sort.Ints` / `sort.Strings`), by insertion. */
  method SortInPlace<T(!new)>(a: array<T>, leq: (T, T) -> bool)
    requires TotalOrder(leq)
    modifies a
    ensures Sorted(a[..], leq)
    ensures multiset(a[..]) == multiset(old(a[..]))
  {
    if a.Length == 0 {
      return;
    }
    var i := 1;
    while i < a.Length
      invariant 1 <= i <= a.Length
      invariant Sorted(a[..i], leq)
      invariant multiset(a[..]) == multiset(old(a[..]))
    {
      var j := i;
      while j > 0 && !leq(a[j - 1], a[j])
        invariant 0 <= j <= i
        invariant forall p, q :: 0 <= p < q <= i && p != j && q != j ==> leq(a[p], a[q])
        invariant forall q :: j < q <= i ==> leq(a[j], a[q])
        invariant multiset(a[..]) == multiset(old(a[..]))
      {
        a[j - 1], a[j] := a[j], a[j - 1];
        j := j - 1;
      }
      i := i + 1;
    }
  }

  /**
   * `sort.SearchInts` / `sort.SearchStrings` over a sorted array: the
   * smallest index whose element is not below `target` (the array's length
   * if there is none), found by halving `[lo, hi)` as `sort.Search` does.
   */
  method Search<T(!new)>(a: array<T>, target: T, leq: (T, T) -> bool) returns (index: nat)
    requires TotalOrder(leq) && Sorted(a[..], leq)
    ensures index <= a.Length
    ensures forall k :: 0 <= k < index ==> !leq(target, a[k])
    ensures forall k :: index <= k < a.Length ==> leq(target, a[k])
  {
    var lo, hi := 0, a.Length;
    while lo < hi
      invariant 0 <= lo <= hi <= a.Length
      invariant forall k :: 0 <= k < lo ==> !leq(target, a[k])
      invariant forall k :: hi <= k < a.Length ==> leq(target, a[k])
    {
      var h := (lo + hi) / 2;
      if !leq(target, a[h]) {
        lo := h + 1;
      } else {
        hi := h;
      }
    }
    index := lo;
  }

  /** The common body of `IsContainInt` and `IsContainString`. */
  method IsContain<T(==, !new)>(target: T, raw: array<T>, leq: (T, T) -> bool) returns (found: bool)
    requires TotalOrder(leq)
    modifies raw
    ensures found <==> target in old(raw[..])
    ensures Sorted(raw[..], leq) && multiset(raw[..]) == multiset(old(raw[..]))
  {
    SortInPlace(raw, leq);
    var index := Search(raw, target, leq);
    found := index < raw.Length && raw[index] == target;
    assert target in old(raw[..]) <==> target in multiset(raw[..]);
  }

  /** `IsContainInt`: sorts `raw` ascending in place, then reports whether `target` occurs in it. */
  method IsContainInt(target: int, raw: array<int>) returns (found: bool)
    modifies raw
    ensures found <==> target in old(raw[..])
    ensures Sorted(raw[..], IntLeq) && multiset(raw[..]) == multiset(old(raw[..]))
  {
    IntLeqTotalOrder();
    found := IsContain(target, raw, IntLeq);
  }

  /** `IsContainString`: sorts `raw` in place, then reports whether `target` occurs in it. */
  method IsContainString(target: string, raw: array<string>) returns (found: bool)
    modifies raw
    ensures found <==> target in old(raw[..])
    ensures Sorted(raw[..], StrLeq) && multiset(raw[..]) == multiset(old(raw[..]))
  {
    StrLeqTotalOrder();
    found := IsContain(target, raw, StrLeq);
  }

  /** An empty slice contains nothing. */
  method IsContainIntEmpty(target: int) returns (found: bool)
    ensures !found
  {
    var raw := new int[0];
    found := IsContainInt(target, raw);
  }

  /** The concatenation of `parts`, in order. */
  function Concat<T>(parts: seq<seq<T>>): seq<T> {
    if parts == [] then [] else Concat(parts[..|parts| - 1]) + parts[|parts| - 1]
  }

  /** The sum of the lengths of `parts`. */
  function TotalLength<T>(parts: seq<seq<T>>): nat {
    if parts == [] then 0 else TotalLength(parts[..|parts| - 1]) + |parts[|parts| - 1]|
  }

  /** `JoinString`: writes every argument into a builder, in order. */
  method JoinString(values: seq<string>) returns (r: string)
    ensures r == Concat(values)
    ensures |r| == TotalLength(values)
  {
    var buffer := "";
    for i := 0 to |values|
      invariant buffer == Concat(values[..i])
    {
      assert values[..i + 1][..i] == values[..i];
      buffer := buffer + values[i];
    }
    assert values[..|values|] == values;
    ConcatLength(values);
    r := buffer;
  }

  /** The length of a concatenation is the sum of the lengths. */
  lemma {:induction false} ConcatLength<T>(parts: seq<seq<T>>)
    ensures |Concat(parts)| == TotalLength(parts)
  {
    if parts != [] {
      ConcatLength(parts[..|parts| - 1]);
    }
  }

  /** Concatenation distributes over appending lists of parts. */
  lemma {:induction false} ConcatAppend<T>(xs: seq<seq<T>>, ys: seq<seq<T>>)
    ensures Concat(xs + ys) == Concat(xs) + Concat(ys)
    decreases |ys|
  {
    if ys == [] {
      assert xs + ys == xs;
    } else {
      var n := |ys| - 1;
      assert (xs + ys)[..|xs + ys| - 1] == xs + ys[..n];
      ConcatAppend(xs, ys[..n]);
    }
  }

  /** Joining two parts is appending them. */
  lemma ConcatPair<T>(a: seq<T>, b: seq<T>)
    ensures Concat([a, b]) == a + b
  {
    assert [a, b][..1] == [a];
    assert [a][..0] == [];
    assert Concat([a]) == Concat([]) + a;
    assert Concat([a, b]) == Concat([a]) + b;
  }

  /** Each part sits in the concatenation right after the parts before it. */
  lemma PartInPlace<T>(parts: seq<seq<T>>, i: nat)
    requires i < |parts|
    ensures TotalLength(parts[..i]) + |parts[i]| <= |Concat(parts)|
    ensures Concat(parts)[TotalLength(parts[..i])..TotalLength(parts[..i]) + |parts[i]|] == parts[i]
  {
    assert parts == parts[..i] + [parts[i]] + parts[i + 1..];
    ConcatAppend(parts[..i] + [parts[i]], parts[i + 1..]);
    ConcatAppend(parts[..i], [parts[i]]);
    assert Concat([parts[i]]) == parts[i] by {
      assert [parts[i]][..0] == [];
    }
    ConcatLength(parts[..i]);
  }
}
