/** `Array.prototype.sort` with a comparator: JavaScript requires the sort to be stable,
    so the result is determined by the comparator alone. Here `before(a, b)` holds when
    the comparator is negative, that is when `a` must come before `b`. */
module Sorting {
  import opened Seqs

  /** The laws a comparator must obey for a sort to be well defined: no two elements
      must come before each other, and if `a` must come before `c` then every `b`
      comes after `a` or before `c`. */
  ghost predicate StrictWeakOrder<T(!new)>(before: (T, T) -> bool) {
    (forall a, b :: !(before(a, b) && before(b, a)))
    && (forall a, b, c :: before(a, c) ==> before(a, b) || before(b, c))
  }

  /** The comparator returns zero: neither element must come before the other. */
  predicate Tied<T>(before: (T, T) -> bool, a: T, b: T) {
    !before(a, b) && !before(b, a)
  }

  /** The elements tied with `x`. */
  function TiedWith<T>(before: (T, T) -> bool, x: T): T -> bool {
    y => Tied(before, x, y)
  }

  /** No later element must come before an earlier one. */
  predicate SortedBy<T>(s: seq<T>, before: (T, T) -> bool) {
    forall i, j :: 0 <= i < j < |s| ==> !before(s[j], s[i])
  }

  /** One step of a stable insertion sort: `x` goes after the last element of `p` that it
      does not have to precede. */
  function Insert<T>(p: seq<T>, x: T, before: (T, T) -> bool): (r: seq<T>)
    ensures |r| == |p| + 1
  {
    if p != [] && before(x, p[|p| - 1]) then Insert(p[..|p| - 1], x, before) + [p[|p| - 1]]
    else p + [x]
  }

  /** The stable sort of `s`: its elements inserted one by one, in order. */
  function StableSort<T>(s: seq<T>, before: (T, T) -> bool): (r: seq<T>)
    ensures |r| == |s|
  {
    if s == [] then [] else Insert(StableSort(s[..|s| - 1], before), s[|s| - 1], before)
  }

  /** Where the insertion scan stops: `x` lands at `j`, before exactly the elements it must precede. */
  lemma {:induction false} InsertAt<T>(p: seq<T>, x: T, before: (T, T) -> bool, j: int)
    requires 0 <= j <= |p|
    requires forall k :: j <= k < |p| ==> before(x, p[k])
    requires j == 0 || !before(x, p[j - 1])
    ensures Insert(p, x, before) == p[..j] + [x] + p[j..]
    decreases |p|
  {
    if j < |p| {
      var p' := p[..|p| - 1];
      InsertAt(p', x, before, j);
      assert p'[..j] == p[..j];
      assert p[j..] == p'[j..] + [p[|p| - 1]];
    } else {
      assert p[..j] == p;
    }
  }

  /** Inserting adds exactly one occurrence of `x`. */
  lemma {:induction false} InsertMultiset<T>(p: seq<T>, x: T, before: (T, T) -> bool)
    ensures multiset(Insert(p, x, before)) == multiset(p) + multiset{x}
    decreases |p|
  {
    if p != [] && before(x, p[|p| - 1]) {
      InsertMultiset(p[..|p| - 1], x, before);
      assert p == p[..|p| - 1] + [p[|p| - 1]];
    }
  }

  /** The sort is a permutation of its input. */
  lemma {:induction false} StableSortPermutes<T>(s: seq<T>, before: (T, T) -> bool)
    ensures multiset(StableSort(s, before)) == multiset(s)
    decreases |s|
  {
    if s != [] {
      var s', last := s[..|s| - 1], s[|s| - 1];
      calc {
        multiset(StableSort(s, before));
        multiset(Insert(StableSort(s', before), last, before));
        { InsertMultiset(StableSort(s', before), last, before); }
        multiset(StableSort(s', before)) + multiset{last};
        { StableSortPermutes(s', before); }
        multiset(s') + multiset{last};
        { assert s == s' + [last]; }
        multiset(s);
      }
    }
  }

  /** Inserting into a sorted list keeps it sorted. */
  lemma {:induction false} InsertSorted<T(!new)>(p: seq<T>, x: T, before: (T, T) -> bool)
    requires StrictWeakOrder(before)
    requires SortedBy(p, before)
    ensures SortedBy(Insert(p, x, before), before)
    decreases |p|
  {
    if p != [] {
      var p', last := p[..|p| - 1], p[|p| - 1];
      if before(x, last) {
        InsertSorted(p', x, before);
        InsertMultiset(p', x, before);
        var q := Insert(p', x, before);
        forall i | 0 <= i < |q| ensures !before(last, q[i]) {
          assert q[i] in multiset(p') + multiset{x};
          if q[i] != x {
            assert q[i] in p';
          }
        }
      }
    }
  }

  /** The sort's result is ordered by the comparator. */
  lemma {:induction false} StableSortSorted<T(!new)>(s: seq<T>, before: (T, T) -> bool)
    requires StrictWeakOrder(before)
    ensures SortedBy(StableSort(s, before), before)
    decreases |s|
  {
    if s != [] {
      StableSortSorted(s[..|s| - 1], before);
      InsertSorted(StableSort(s[..|s| - 1], before), s[|s| - 1], before);
    }
  }

  /** Inserting keeps the order among the elements tied with any `x`. */
  lemma {:induction false} InsertStable<T(!new)>(p: seq<T>, y: T, before: (T, T) -> bool, x: T)
    requires StrictWeakOrder(before)
    ensures Filter(Insert(p, y, before), TiedWith(before, x)) == Filter(p + [y], TiedWith(before, x))
    decreases |p|
  {
    var t := TiedWith(before, x);
    if p != [] && before(y, p[|p| - 1]) {
      var p', last := p[..|p| - 1], p[|p| - 1];
      calc {
        Filter(Insert(p, y, before), t);
        Filter(Insert(p', y, before) + [last], t);
        { FilterAppend(Insert(p', y, before), [last], t); }
        Filter(Insert(p', y, before), t) + Filter([last], t);
        { InsertStable(p', y, before, x); FilterAppend(p', [y], t); }
        Filter(p', t) + (Filter([y], t) + Filter([last], t));
        { FilterSingletonsCommute(y, last, t); }
        Filter(p', t) + (Filter([last], t) + Filter([y], t));
        { FilterAppend(p', [last], t); assert p' + [last] == p; }
        Filter(p, t) + Filter([y], t);
        { FilterAppend(p, [y], t); }
        Filter(p + [y], t);
      }
    }
  }

  /** Stability: the sort keeps the input order among the elements the comparator ties. */
  lemma {:induction false} StableSortStable<T(!new)>(s: seq<T>, before: (T, T) -> bool, x: T)
    requires StrictWeakOrder(before)
    ensures Filter(StableSort(s, before), TiedWith(before, x)) == Filter(s, TiedWith(before, x))
    decreases |s|
  {
    if s != [] {
      var s', last := s[..|s| - 1], s[|s| - 1];
      var t := TiedWith(before, x);
      calc {
        Filter(StableSort(s, before), t);
        Filter(Insert(StableSort(s', before), last, before), t);
        { InsertStable(StableSort(s', before), last, before, x); }
        Filter(StableSort(s', before) + [last], t);
        { FilterAppend(StableSort(s', before), [last], t); }
        Filter(StableSort(s', before), t) + Filter([last], t);
        { StableSortStable(s', before, x); }
        Filter(s', t) + Filter([last], t);
        { FilterAppend(s', [last], t); assert s' + [last] == s; }
        Filter(s, t);
      }
    }
  }

  /** A list already in order is left as it is; so sorting twice is sorting once. */
  lemma {:induction false} StableSortOfSorted<T>(s: seq<T>, before: (T, T) -> bool)
    requires SortedBy(s, before)
    ensures StableSort(s, before) == s
    decreases |s|
  {
    if s != [] {
      var s' := s[..|s| - 1];
      assert SortedBy(s', before);
      StableSortOfSorted(s', before);
    }
  }

  /** After one pass on a list whose first `i` elements are the sorted prefix of `s`
      and whose rest is still `s`, the first `i + 1` elements are the sorted prefix. */
  lemma SortStep<T>(s: seq<T>, prev: seq<T>, next: seq<T>, i: int, before: (T, T) -> bool)
    requires 0 <= i < |s| == |prev| == |next|
    requires prev[..i] == StableSort(s[..i], before) && prev[i..] == s[i..]
    requires next[..i + 1] == Insert(prev[..i], prev[i], before) && next[i + 1..] == prev[i + 1..]
    ensures next[..i + 1] == StableSort(s[..i + 1], before) && next[i + 1..] == s[i + 1..]
  {
    assert s[..i + 1][..i] == s[..i];
    assert prev[i] == s[i];
  }

  /** The list the insertion pass leaves behind, described element by element, is `Insert`'s result. */
  lemma InsertLanded<T>(sorted: seq<T>, x: T, j: int, next: seq<T>, before: (T, T) -> bool)
    requires 0 <= j <= |sorted| && |next| == |sorted| + 1
    requires forall k :: 0 <= k < j ==> next[k] == sorted[k]
    requires next[j] == x
    requires forall k :: j < k <= |sorted| ==> next[k] == sorted[k - 1]
    requires forall k :: j <= k < |sorted| ==> before(x, sorted[k])
    requires j == 0 || !before(x, sorted[j - 1])
    ensures next == Insert(sorted, x, before)
  {
    InsertAt(sorted, x, before, j);
    assert next == sorted[..j] + [x] + sorted[j..];
  }

  /** One pass of the insertion sort: the element at `i` moves left past every element
      it must precede. */
  method InsertStep<T>(a: array<T>, i: int, before: (T, T) -> bool)
    requires 0 <= i < a.Length
    modifies a
    ensures a[..i + 1] == Insert(old(a[..i]), old(a[i]), before)
    ensures a[i + 1..] == old(a[i + 1..])
  {
    ghost var sorted := a[..i];
    ghost var rest := a[i + 1..];
    var x := a[i];
    var j := i;
    while j > 0 && before(x, a[j - 1])
      invariant 0 <= j <= i
      invariant forall k :: 0 <= k < j ==> a[k] == sorted[k]
      invariant forall k :: j < k <= i ==> a[k] == sorted[k - 1]
      invariant forall k :: j <= k < i ==> before(x, sorted[k])
      invariant a[i + 1..] == rest
    {
      a[j] := a[j - 1];
      j := j - 1;
    }
    a[j] := x;
    InsertLanded(sorted, x, j, a[..i + 1], before);
  }

  /** `a.sort(compare)`: insertion sort in place, which is stable. */
  method SortInPlace<T>(a: array<T>, before: (T, T) -> bool)
    modifies a
    ensures a[..] == StableSort(old(a[..]), before)
  {
    ghost var s := a[..];
    for i := 0 to a.Length
      invariant a[..i] == StableSort(s[..i], before)
      invariant a[i..] == s[i..]
    {
      ghost var prev := a[..];
      InsertStep(a, i, before);
      SortStep(s, prev, a[..], i, before);
    }
    assert s[..a.Length] == s;
  }
}
