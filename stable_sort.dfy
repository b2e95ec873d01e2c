// Stable sorting by a key, the behaviour `Array.prototype.sort` has when it is
// given a comparator that returns -1, 1 or 0 from a `<` test on two keys
// (ECMAScript requires that sort to be stable).

module StableSort {

  /** The values the comparators of the dashboard compare with `<`: strings and numbers. */
  datatype SortKey = Str(s: string) | Num(n: int)

  /** JavaScript's `<` on two strings: lexicographic, a proper prefix first. */
  predicate StrLess(a: string, b: string)
    decreases |a|
  {
    if |a| == 0 then |b| > 0
    else if |b| == 0 then false
    else if a[0] != b[0] then a[0] < b[0]
    else StrLess(a[1..], b[1..])
  }

  /** Keys of one sort field are all strings or all numbers; a mixed pair orders numbers first. */
  predicate KeyLess(a: SortKey, b: SortKey) {
    match (a, b)
    case (Num(x), Num(y)) => x < y
    case (Str(x), Str(y)) => StrLess(x, y)
    case (Num(_), Str(_)) => true
    case (Str(_), Num(_)) => false
  }

  datatype Direction = Asc | Desc

  /** The comparator returns -1 for keys `a`, `b`: the element with key `a` goes first. */
  predicate Before(a: SortKey, b: SortKey, dir: Direction) {
    if dir == Asc then KeyLess(a, b) else KeyLess(b, a)
  }

  lemma {:induction false} StrLessIrreflexive(a: string)
    ensures !StrLess(a, a)
    decreases |a|
  {
    if |a| > 0 {
      StrLessIrreflexive(a[1..]);
    }
  }

  lemma {:induction false} StrLessTrichotomy(a: string, b: string)
    ensures a == b || StrLess(a, b) || StrLess(b, a)
    ensures !(StrLess(a, b) && StrLess(b, a))
    decreases |a|
  {
    if |a| > 0 && |b| > 0 && a[0] == b[0] {
      StrLessTrichotomy(a[1..], b[1..]);
      if a[1..] == b[1..] {
        assert a == [a[0]] + a[1..] && b == [b[0]] + b[1..];
      }
    }
  }

  lemma {:induction false} StrLessTransitive(a: string, b: string, c: string)
    requires StrLess(a, b) && StrLess(b, c)
    ensures StrLess(a, c)
    decreases |a|
  {
    if |a| > 0 && a[0] == b[0] && b[0] == c[0] {
      StrLessTransitive(a[1..], b[1..], c[1..]);
    }
  }

  /** `Before` is a strict total order on keys, in both directions. */
  lemma BeforeIsStrictTotalOrder(a: SortKey, b: SortKey, c: SortKey, dir: Direction)
    ensures !Before(a, a, dir)
    ensures a == b || Before(a, b, dir) || Before(b, a, dir)
    ensures !(Before(a, b, dir) && Before(b, a, dir))
    ensures Before(a, b, dir) && Before(b, c, dir) ==> Before(a, c, dir)
  {
    if a.Str? {
      StrLessIrreflexive(a.s);
    }
    if a.Str? && b.Str? {
      StrLessTrichotomy(a.s, b.s);
    }
    if a.Str? && b.Str? && c.Str? {
      if StrLess(a.s, b.s) && StrLess(b.s, c.s) {
        StrLessTransitive(a.s, b.s, c.s);
      }
      if StrLess(c.s, b.s) && StrLess(b.s, a.s) {
        StrLessTransitive(c.s, b.s, a.s);
      }
    }
  }

  /** Keys that are not out of order are in order: `a` not before `b`, `b` not before `c`, so `a` not before `c`. */
  lemma NotBeforeTransitive(a: SortKey, b: SortKey, c: SortKey, dir: Direction)
    requires !Before(a, b, dir) && !Before(b, c, dir)
    ensures !Before(a, c, dir)
  {
    BeforeIsStrictTotalOrder(a, b, c, dir);
    BeforeIsStrictTotalOrder(b, a, c, dir);
  }

  /** No element is strictly before an element that precedes it. */
  ghost predicate Sorted<T>(s: seq<T>, key: T -> SortKey, dir: Direction) {
    forall i, j :: 0 <= i < j < |s| ==> !Before(key(s[j]), key(s[i]), dir)
  }

  /** The elements of `s` whose key is `k`, in their order in `s`. */
  function WithKey<T>(s: seq<T>, key: T -> SortKey, k: SortKey): (r: seq<T>)
    ensures |r| <= |s|
  {
    if |s| == 0 then []
    else WithKey(s[..|s| - 1], key, k) + OneWithKey(s[|s| - 1], key, k)
  }

  lemma {:induction false} WithKeyAppend<T>(a: seq<T>, b: seq<T>, key: T -> SortKey, k: SortKey)
    ensures WithKey(a + b, key, k) == WithKey(a, key, k) + WithKey(b, key, k)
    decreases |b|
  {
    if |b| > 0 {
      var b' := b[..|b| - 1];
      assert (a + b)[..|a + b| - 1] == a + b';
      WithKeyAppend(a, b', key, k);
    } else {
      assert a + b == a;
    }
  }

  /** Inserting `x` behind the sorted `t`: it moves left past the elements whose key it goes before. */
  function Insert<T>(t: seq<T>, x: T, key: T -> SortKey, dir: Direction): (r: seq<T>)
    ensures |r| == |t| + 1
  {
    if |t| == 0 then [x]
    else if Before(key(x), key(t[|t| - 1]), dir) then Insert(t[..|t| - 1], x, key, dir) + [t[|t| - 1]]
    else t + [x]
  }

  /** Insertion sort, the reference definition of a stable sort. */
  function SortBy<T>(s: seq<T>, key: T -> SortKey, dir: Direction): (r: seq<T>)
    ensures |r| == |s|
  {
    if |s| == 0 then [] else Insert(SortBy(s[..|s| - 1], key, dir), s[|s| - 1], key, dir)
  }

  lemma {:induction false} InsertPermutes<T>(t: seq<T>, x: T, key: T -> SortKey, dir: Direction)
    ensures multiset(Insert(t, x, key, dir)) == multiset(t) + multiset{x}
    decreases |t|
  {
    if |t| > 0 && Before(key(x), key(t[|t| - 1]), dir) {
      InsertPermutes(t[..|t| - 1], x, key, dir);
      assert t == t[..|t| - 1] + [t[|t| - 1]];
    }
  }

  /** The elements with key `k` among the single element `x`. */
  function OneWithKey<T>(x: T, key: T -> SortKey, k: SortKey): (r: seq<T>)
    ensures |r| <= 1
  {
    if key(x) == k then [x] else []
  }

  lemma WithKeySnoc<T>(s: seq<T>, x: T, key: T -> SortKey, k: SortKey)
    ensures WithKey(s + [x], key, k) == WithKey(s, key, k) + OneWithKey(x, key, k)
  {
    assert (s + [x])[..|s + [x]| - 1] == s;
  }

  lemma {:induction false} InsertKeepsKeyOrder<T>(t: seq<T>, x: T, key: T -> SortKey, dir: Direction, k: SortKey)
    ensures WithKey(Insert(t, x, key, dir), key, k) == WithKey(t, key, k) + OneWithKey(x, key, k)
    decreases |t|
  {
    if |t| > 0 {
      var init, last := t[..|t| - 1], t[|t| - 1];
      assert t == init + [last];
      WithKeySnoc(init, last, key, k);
      if Before(key(x), key(last), dir) {
        BeforeIsStrictTotalOrder(key(x), key(last), key(x), dir);
        InsertKeepsKeyOrder(init, x, key, dir, k);
        var ins := Insert(init, x, key, dir);
        assert Insert(t, x, key, dir) == ins + [last];
        WithKeySnoc(ins, last, key, k);
        if key(x) == k {
          assert OneWithKey(last, key, k) == [];
          assert WithKey(ins + [last], key, k) == WithKey(ins, key, k);
          assert WithKey(t, key, k) == WithKey(init, key, k);
        } else {
          assert OneWithKey(x, key, k) == [];
          assert WithKey(ins, key, k) == WithKey(init, key, k);
        }
      } else {
        assert Insert(t, x, key, dir) == t + [x];
        WithKeySnoc(t, x, key, k);
      }
    }
  }

  lemma {:induction false} InsertSorted<T>(t: seq<T>, x: T, key: T -> SortKey, dir: Direction)
    requires Sorted(t, key, dir)
    ensures Sorted(Insert(t, x, key, dir), key, dir)
    decreases |t|
  {
    if |t| > 0 {
      var init, last := t[..|t| - 1], t[|t| - 1];
      var r := Insert(t, x, key, dir);
      if Before(key(x), key(last), dir) {
        var ins := Insert(init, x, key, dir);
        assert Sorted(init, key, dir);
        InsertSorted(init, x, key, dir);
        InsertPermutes(init, x, key, dir);
        forall i | 0 <= i < |ins|
          ensures !Before(key(last), key(ins[i]), dir)
        {
          assert ins[i] in multiset(ins);
          if ins[i] == x {
            BeforeIsStrictTotalOrder(key(x), key(last), key(x), dir);
          } else {
            assert ins[i] in multiset(init);
            var m :| 0 <= m < |init| && init[m] == ins[i];
            assert t[m] == ins[i];
          }
        }
        assert r == ins + [last];
      } else {
        forall i | 0 <= i < |t|
          ensures !Before(key(x), key(t[i]), dir)
        {
          if i < |t| - 1 {
            NotBeforeTransitive(key(x), key(last), key(t[i]), dir);
          }
        }
        assert r == t + [x];
      }
    }
  }

  /** The reference sort orders its result. */
  lemma {:induction false} SortBySorted<T>(s: seq<T>, key: T -> SortKey, dir: Direction)
    ensures Sorted(SortBy(s, key, dir), key, dir)
    decreases |s|
  {
    if |s| > 0 {
      SortBySorted(s[..|s| - 1], key, dir);
      InsertSorted(SortBy(s[..|s| - 1], key, dir), s[|s| - 1], key, dir);
    }
  }

  /** The reference sort neither loses nor invents elements. */
  lemma {:induction false} SortByPermutes<T>(s: seq<T>, key: T -> SortKey, dir: Direction)
    ensures multiset(SortBy(s, key, dir)) == multiset(s)
    decreases |s|
  {
    if |s| > 0 {
      var init, last := s[..|s| - 1], s[|s| - 1];
      SortByPermutes(init, key, dir);
      InsertPermutes(SortBy(init, key, dir), last, key, dir);
      assert s == init + [last];
      assert multiset(s) == multiset(init) + multiset{last};
    }
  }

  /** The reference sort is stable: the elements with any one key keep their relative order. */
  lemma {:induction false} SortByStable<T>(s: seq<T>, key: T -> SortKey, dir: Direction, k: SortKey)
    ensures WithKey(SortBy(s, key, dir), key, k) == WithKey(s, key, k)
    decreases |s|
  {
    if |s| > 0 {
      SortByStable(s[..|s| - 1], key, dir, k);
      InsertKeepsKeyOrder(SortBy(s[..|s| - 1], key, dir), s[|s| - 1], key, dir, k);
    }
  }

  lemma {:induction false} InsertDistinct<T>(t: seq<T>, x: T, key: T -> SortKey, dir: Direction)
    requires forall i, j :: 0 <= i < j < |t| ==> t[i] != t[j]
    requires x !in t
    ensures var r := Insert(t, x, key, dir); forall i, j :: 0 <= i < j < |r| ==> r[i] != r[j]
    decreases |t|
  {
    if |t| > 0 && Before(key(x), key(t[|t| - 1]), dir) {
      var init, last := t[..|t| - 1], t[|t| - 1];
      assert x !in init;
      InsertDistinct(init, x, key, dir);
      InsertPermutes(init, x, key, dir);
      var ins := Insert(init, x, key, dir);
      assert last !in multiset(init);
      assert last !in multiset(ins);
      assert Insert(t, x, key, dir) == ins + [last];
    }
  }

  /** The reference sort of a sequence without repeated elements has none either. */
  lemma {:induction false} SortByDistinct<T>(s: seq<T>, key: T -> SortKey, dir: Direction)
    requires forall i, j :: 0 <= i < j < |s| ==> s[i] != s[j]
    ensures var r := SortBy(s, key, dir); forall i, j :: 0 <= i < j < |r| ==> r[i] != r[j]
    decreases |s|
  {
    if |s| > 0 {
      var init, last := s[..|s| - 1], s[|s| - 1];
      SortByDistinct(init, key, dir);
      SortByPermutes(init, key, dir);
      assert last !in multiset(SortBy(init, key, dir)) by {
        assert last !in init;
      }
      InsertDistinct(SortBy(init, key, dir), last, key, dir);
      assert SortBy(s, key, dir) == Insert(SortBy(init, key, dir), last, key, dir);
    }
  }

  /** One step of the inner loop: `x` goes before the last element of the prefix, so it moves past it. */
  lemma InsertStepsLeft<T>(t: seq<T>, x: T, key: T -> SortKey, dir: Direction, j: nat)
    requires 0 < j <= |t|
    requires Before(key(x), key(t[j - 1]), dir)
    ensures Insert(t[..j], x, key, dir) + t[j..] == Insert(t[..j - 1], x, key, dir) + t[j - 1..]
  {
    assert t[..j][..j - 1] == t[..j - 1];
    assert t[j - 1..] == [t[j - 1]] + t[j..];
  }

  /** The inner loop stops: `x` does not go before the element left of it, or it reached the front. */
  lemma InsertStops<T>(t: seq<T>, x: T, key: T -> SortKey, dir: Direction, j: nat)
    requires j <= |t|
    requires j == 0 || !Before(key(x), key(t[j - 1]), dir)
    ensures Insert(t[..j], x, key, dir) == t[..j] + [x]
  {
    if j > 0 {
      assert t[..j][..j - 1] == t[..j - 1];
    }
  }

  /** The array after the inner loop, element by element, is the prefix, `x`, then the shifted rest. */
  lemma Placed<T>(b: seq<T>, t: seq<T>, x: T, j: nat)
    requires j <= |t| && |b| == |t| + 1
    requires forall k :: 0 <= k < j ==> b[k] == t[k]
    requires b[j] == x
    requires forall k :: j < k < |b| ==> b[k] == t[k - 1]
    ensures b == t[..j] + [x] + t[j..]
  {
  }

  /** Moves `a[i]` left into the sorted prefix `a[..i]`, shifting the elements it goes before one place right. */
  method InsertInPlace<T>(a: array<T>, i: nat, key: T -> SortKey, dir: Direction)
    requires i < a.Length
    modifies a
    ensures a[..i + 1] == Insert(old(a[..i]), old(a[i]), key, dir)
    ensures forall k :: i < k < a.Length ==> a[k] == old(a[k])
  {
    ghost var t := a[..i];
    var x := a[i];
    var j := i;
    assert t[..j] == t && t[j..] == [];
    while j > 0 && Before(key(x), key(a[j - 1]), dir)
      invariant 0 <= j <= i
      invariant forall k :: 0 <= k < j ==> a[k] == t[k]
      invariant forall k :: j < k <= i ==> a[k] == t[k - 1]
      invariant forall k :: i < k < a.Length ==> a[k] == old(a[k])
      invariant Insert(t, x, key, dir) == Insert(t[..j], x, key, dir) + t[j..]
    {
      InsertStepsLeft(t, x, key, dir, j);
      a[j] := a[j - 1];
      j := j - 1;
    }
    a[j] := x;
    InsertStops(t, x, key, dir, j);
    Placed(a[..i + 1], t, x, j);
  }

  /** Sorts `a` in place by insertion, as the reference sort does. */
  method SortInPlace<T>(a: array<T>, key: T -> SortKey, dir: Direction)
    modifies a
    ensures a[..] == SortBy(old(a[..]), key, dir)
  {
    ghost var s := a[..];
    var i := 0;
    while i < a.Length
      invariant 0 <= i <= a.Length
      invariant a[..i] == SortBy(s[..i], key, dir)
      invariant forall k :: i <= k < a.Length ==> a[k] == s[k]
    {
      InsertInPlace(a, i, key, dir);
      assert s[..i + 1][..i] == s[..i] && s[..i + 1][i] == s[i];
      i := i + 1;
    }
    assert a[..] == a[..a.Length] && s == s[..a.Length];
  }
}
