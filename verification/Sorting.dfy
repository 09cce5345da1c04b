/** Stable sorting by a key order, as Python's `list.sort(key=...)` and `sorted(...)` do it.

    `Sort` is one executable stable sort.  `StableSortIsUnique` shows that nothing depends on
    which one: every list that is ordered and keeps each class of equal keys in its original
    order is the list `Sort` returns.
 */
module Sorting {

  /** Total and transitive; two different elements may still rank equal. */
  ghost predicate TotalPreorder<T(!new)>(leq: (T, T) -> bool) {
    && (forall a, b :: leq(a, b) || leq(b, a))
    && (forall a, b, c :: leq(a, b) && leq(b, c) ==> leq(a, c))
  }

  ghost predicate Sorted<T>(leq: (T, T) -> bool, s: seq<T>) {
    forall i, j :: 0 <= i < j < |s| ==> leq(s[i], s[j])
  }

  /** Left-biased merge: on equal keys the left element comes first. */
  function Merge<T(!new)>(leq: (T, T) -> bool, xs: seq<T>, ys: seq<T>): (r: seq<T>)
    ensures |r| == |xs| + |ys|
    decreases |xs| + |ys|
  {
    if xs == [] then ys
    else if ys == [] then xs
    else if leq(xs[0], ys[0]) then [xs[0]] + Merge(leq, xs[1..], ys)
    else [ys[0]] + Merge(leq, xs, ys[1..])
  }

  function Sort<T(!new)>(leq: (T, T) -> bool, xs: seq<T>): (r: seq<T>)
    ensures |r| == |xs|
  {
    if xs == [] then [] else Merge(leq, [xs[0]], Sort(leq, xs[1..]))
  }

  /** The elements of `s` whose key equals the key of `e`, in order. */
  function SameKey<T>(leq: (T, T) -> bool, e: T, s: seq<T>): seq<T> {
    if s == [] then []
    else if leq(e, s[0]) && leq(s[0], e) then [s[0]] + SameKey(leq, e, s[1..])
    else SameKey(leq, e, s[1..])
  }

  /** `s` and `t` hold the same elements, in the same order within each class of equal keys. */
  ghost predicate SameClasses<T(!new)>(leq: (T, T) -> bool, s: seq<T>, t: seq<T>) {
    forall e :: SameKey(leq, e, s) == SameKey(leq, e, t)
  }

  lemma {:induction false} SortedCons<T(!new)>(leq: (T, T) -> bool, x: T, s: seq<T>)
    requires Sorted(leq, s)
    requires forall e :: e in s ==> leq(x, e)
    ensures Sorted(leq, [x] + s)
  {
  }

  lemma {:induction false} SortedTail<T(!new)>(leq: (T, T) -> bool, s: seq<T>)
    requires Sorted(leq, s) && s != []
    ensures Sorted(leq, s[1..])
    ensures forall e :: e in s[1..] ==> leq(s[0], e)
  {
  }

  lemma {:induction false} MergeElements<T(!new)>(leq: (T, T) -> bool, xs: seq<T>, ys: seq<T>)
    ensures forall e :: e in Merge(leq, xs, ys) <==> e in xs || e in ys
  {
    MergeMultiset(leq, xs, ys);
    forall e ensures e in Merge(leq, xs, ys) <==> e in xs || e in ys {
      assert e in Merge(leq, xs, ys) <==> e in multiset(Merge(leq, xs, ys));
      assert e in xs <==> e in multiset(xs);
      assert e in ys <==> e in multiset(ys);
    }
  }

  lemma {:induction false} SortElements<T(!new)>(leq: (T, T) -> bool, xs: seq<T>)
    ensures forall e :: e in Sort(leq, xs) <==> e in xs
  {
    SortMultiset(leq, xs);
    forall e ensures e in Sort(leq, xs) <==> e in xs {
      assert e in Sort(leq, xs) <==> e in multiset(Sort(leq, xs));
      assert e in xs <==> e in multiset(xs);
    }
  }

  lemma {:induction false} MergeSorted<T(!new)>(leq: (T, T) -> bool, xs: seq<T>, ys: seq<T>)
    requires TotalPreorder(leq) && Sorted(leq, xs) && Sorted(leq, ys)
    ensures Sorted(leq, Merge(leq, xs, ys))
    decreases |xs| + |ys|
  {
    if xs != [] && ys != [] {
      SortedTail(leq, xs);
      SortedTail(leq, ys);
      if leq(xs[0], ys[0]) {
        MergeSorted(leq, xs[1..], ys);
        MergeElements(leq, xs[1..], ys);
        SortedCons(leq, xs[0], Merge(leq, xs[1..], ys));
      } else {
        MergeSorted(leq, xs, ys[1..]);
        MergeElements(leq, xs, ys[1..]);
        SortedCons(leq, ys[0], Merge(leq, xs, ys[1..]));
      }
    }
  }

  lemma {:induction false} SortSorted<T(!new)>(leq: (T, T) -> bool, xs: seq<T>)
    requires TotalPreorder(leq)
    ensures Sorted(leq, Sort(leq, xs))
  {
    if xs != [] {
      SortSorted(leq, xs[1..]);
      MergeSorted(leq, [xs[0]], Sort(leq, xs[1..]));
    }
  }

  lemma {:induction false} SameKeyAppend<T>(leq: (T, T) -> bool, e: T, xs: seq<T>, ys: seq<T>)
    ensures SameKey(leq, e, xs + ys) == SameKey(leq, e, xs) + SameKey(leq, e, ys)
  {
    if xs == [] {
      assert xs + ys == ys;
    } else {
      assert (xs + ys)[1..] == xs[1..] + ys;
      SameKeyAppend(leq, e, xs[1..], ys);
    }
  }

  /** An element strictly below every element of `s` shares its key with none of them. */
  lemma {:induction false} SameKeyNone<T(!new)>(leq: (T, T) -> bool, e: T, s: seq<T>)
    requires forall x :: x in s ==> !leq(x, e)
    ensures SameKey(leq, e, s) == []
  {
    if s != [] {
      assert s[0] in s;
      SameKeyNone(leq, e, s[1..]);
    }
  }

  lemma {:induction false} MergeStable<T(!new)>(leq: (T, T) -> bool, e: T, xs: seq<T>, ys: seq<T>)
    requires TotalPreorder(leq) && Sorted(leq, xs) && Sorted(leq, ys)
    ensures SameKey(leq, e, Merge(leq, xs, ys)) == SameKey(leq, e, xs) + SameKey(leq, e, ys)
    decreases |xs| + |ys|
  {
    if xs != [] && ys != [] {
      SortedTail(leq, xs);
      SortedTail(leq, ys);
      if leq(xs[0], ys[0]) {
        MergeStable(leq, e, xs[1..], ys);
      } else {
        MergeStable(leq, e, xs, ys[1..]);
        if leq(e, ys[0]) && leq(ys[0], e) {
          forall x | x in xs ensures !leq(x, e) {
            assert leq(xs[0], x);
          }
          SameKeyNone(leq, e, xs);
        }
      }
    }
  }

  /** Sorting is stable: elements of equal key keep the order they had. */
  lemma {:induction false} SortStable<T(!new)>(leq: (T, T) -> bool, e: T, xs: seq<T>)
    requires TotalPreorder(leq)
    ensures SameKey(leq, e, Sort(leq, xs)) == SameKey(leq, e, xs)
  {
    if xs != [] {
      SortStable(leq, e, xs[1..]);
      SortSorted(leq, xs[1..]);
      MergeStable(leq, e, [xs[0]], Sort(leq, xs[1..]));
      SameKeyAppend(leq, e, [xs[0]], xs[1..]);
      assert [xs[0]] + xs[1..] == xs;
    }
  }

  lemma {:induction false} SameKeyFirst<T(!new)>(leq: (T, T) -> bool, e: T, s: seq<T>)
    requires TotalPreorder(leq) && e in s
    ensures SameKey(leq, e, s) != []
    ensures forall x :: x in SameKey(leq, e, s) ==> x in s && leq(x, e) && leq(e, x)
  {
    if s[0] != e && e in s[1..] {
      SameKeyFirst(leq, e, s[1..]);
    } else {
      SameKeyMembers(leq, e, s[1..]);
    }
  }

  lemma {:induction false} SameKeyMembers<T(!new)>(leq: (T, T) -> bool, e: T, s: seq<T>)
    ensures forall x :: x in SameKey(leq, e, s) ==> x in s && leq(x, e) && leq(e, x)
  {
    if s != [] {
      SameKeyMembers(leq, e, s[1..]);
    }
  }

  /** Two ordered lists that agree class by class on equal keys are the same list. */
  lemma {:induction false} SortedEqual<T(!new)>(leq: (T, T) -> bool, s: seq<T>, t: seq<T>)
    requires TotalPreorder(leq) && Sorted(leq, s) && Sorted(leq, t)
    requires SameClasses(leq, s, t)
    ensures s == t
  {
    if s != [] { SameKeyFirst(leq, s[0], s); }
    if t != [] { SameKeyFirst(leq, t[0], t); }
    if s != [] && t != [] {
      SameKeyMembers(leq, s[0], t);
      SameKeyMembers(leq, t[0], s);
      SortedTail(leq, s);
      SortedTail(leq, t);
      assert SameKey(leq, s[0], s) == SameKey(leq, s[0], t);
      assert SameKey(leq, t[0], s) == SameKey(leq, t[0], t);
      var u := SameKey(leq, s[0], t)[0];
      assert u in SameKey(leq, s[0], t);
      var v := SameKey(leq, t[0], s)[0];
      assert v in SameKey(leq, t[0], s);
      assert leq(t[0], u) && leq(s[0], v);
      assert s[0] == t[0];
      forall e ensures SameKey(leq, e, s[1..]) == SameKey(leq, e, t[1..]) {
        SameKeyAppend(leq, e, [s[0]], s[1..]);
        SameKeyAppend(leq, e, [t[0]], t[1..]);
        assert s == [s[0]] + s[1..] && t == [t[0]] + t[1..];
        var a := SameKey(leq, e, [s[0]]);
        assert SameKey(leq, e, s) == SameKey(leq, e, t);
        assert SameKey(leq, e, s[1..]) == (a + SameKey(leq, e, s[1..]))[|a|..];
        assert SameKey(leq, e, t[1..]) == (a + SameKey(leq, e, t[1..]))[|a|..];
      }
      SortedEqual(leq, s[1..], t[1..]);
      assert s == [s[0]] + s[1..] && t == [t[0]] + t[1..];
    }
  }

  /** Whatever a stable sort returns, it returns `Sort`. */
  lemma {:induction false} StableSortIsUnique<T(!new)>(leq: (T, T) -> bool, xs: seq<T>, t: seq<T>)
    requires TotalPreorder(leq)
    ensures t == Sort(leq, xs) <==> Sorted(leq, t) && SameClasses(leq, t, xs)
  {
    SortSorted(leq, xs);
    forall e { SortStable(leq, e, xs); }
    assert SameClasses(leq, Sort(leq, xs), xs);
    if Sorted(leq, t) && SameClasses(leq, t, xs) {
      SortedEqual(leq, t, Sort(leq, xs));
    }
  }

  /** Sorting a concatenation merges the two sorted parts. */
  lemma {:induction false} SortAppend<T(!new)>(leq: (T, T) -> bool, xs: seq<T>, ys: seq<T>)
    requires TotalPreorder(leq)
    ensures Sort(leq, xs + ys) == Merge(leq, Sort(leq, xs), Sort(leq, ys))
  {
    SortSorted(leq, xs);
    SortSorted(leq, ys);
    MergeSorted(leq, Sort(leq, xs), Sort(leq, ys));
    forall e ensures SameKey(leq, e, Merge(leq, Sort(leq, xs), Sort(leq, ys))) == SameKey(leq, e, xs + ys) {
      MergeStable(leq, e, Sort(leq, xs), Sort(leq, ys));
      SortStable(leq, e, xs);
      SortStable(leq, e, ys);
      SameKeyAppend(leq, e, xs, ys);
    }
    StableSortIsUnique(leq, xs + ys, Merge(leq, Sort(leq, xs), Sort(leq, ys)));
  }

  lemma {:induction false} SortOfSorted<T(!new)>(leq: (T, T) -> bool, xs: seq<T>)
    requires TotalPreorder(leq) && Sorted(leq, xs)
    ensures Sort(leq, xs) == xs
  {
    StableSortIsUnique(leq, xs, xs);
  }

  /** A strictly ascending list of numbers, and the only one with its members. */
  ghost predicate Ascending(s: seq<int>) {
    forall i, j :: 0 <= i < j < |s| ==> s[i] < s[j]
  }

  lemma {:induction false} AscendingUnique(a: seq<int>, b: seq<int>)
    requires Ascending(a) && Ascending(b)
    requires forall r :: r in a <==> r in b
    ensures a == b
  {
    assert (a != [] ==> a[0] in a) && (b != [] ==> b[0] in b);
    if a != [] && b != [] {
      var m, n := |a| - 1, |b| - 1;
      assert a[m] in a && b[n] in b;
      assert a[m] == b[n];
      forall r ensures r in a[..m] <==> r in b[..n] {
        assert r in a[..m] <==> r in a && r != a[m] by { if r in a { var i :| 0 <= i < |a| && a[i] == r; } }
        assert r in b[..n] <==> r in b && r != b[n] by { if r in b { var i :| 0 <= i < |b| && b[i] == r; } }
      }
      AscendingUnique(a[..m], b[..n]);
    }
  }

  /** Lexicographic order of strings by code point, Python's `<=` on `str`. */
  predicate StringLeq(a: string, b: string) {
    a == [] || (b != [] && (a[0] < b[0] || (a[0] == b[0] && StringLeq(a[1..], b[1..]))))
  }

  /** `a` comes before `b` exactly when it is a prefix of `b`, or smaller at the first place they differ in. */
  lemma {:induction false} StringLeqMeaning(a: string, b: string)
    ensures StringLeq(a, b) <==>
      a <= b || exists i :: 0 <= i < |a| && i < |b| && a[..i] == b[..i] && a[i] < b[i]
  {
    if a != [] && b != [] && a[0] == b[0] {
      StringLeqMeaning(a[1..], b[1..]);
      assert a == [a[0]] + a[1..] && b == [b[0]] + b[1..];
      if i :| 0 <= i < |a[1..]| && i < |b[1..]| && a[1..][..i] == b[1..][..i] && a[1..][i] < b[1..][i] {
        assert a[..i + 1] == [a[0]] + a[1..][..i] && b[..i + 1] == [b[0]] + b[1..][..i];
        assert a[i + 1] < b[i + 1];
      }
      if i :| 0 <= i < |a| && i < |b| && a[..i] == b[..i] && a[i] < b[i] {
        assert i > 0 && a[1..][..i - 1] == a[..i][1..] && b[1..][..i - 1] == b[..i][1..];
        assert a[1..][i - 1] < b[1..][i - 1];
      }
    } else if a != [] && b != [] {
      assert a[..0] == b[..0];
      if i :| 0 <= i < |a| && i < |b| && a[..i] == b[..i] && a[i] < b[i] {
        assert i > 0 ==> a[..i][0] == b[..i][0];
      }
    }
  }

  lemma {:induction false} StringTotal(a: string, b: string)
    ensures StringLeq(a, b) || StringLeq(b, a)
    ensures StringLeq(a, b) && StringLeq(b, a) ==> a == b
  {
    if a != [] && b != [] && a[0] == b[0] {
      StringTotal(a[1..], b[1..]);
      assert a == [a[0]] + a[1..] && b == [b[0]] + b[1..];
    }
  }

  lemma {:induction false} StringTransitive(a: string, b: string, c: string)
    requires StringLeq(a, b) && StringLeq(b, c)
    ensures StringLeq(a, c)
  {
    if a != [] && a[0] == b[0] && b[0] == c[0] {
      StringTransitive(a[1..], b[1..], c[1..]);
    }
  }

  lemma {:induction false} StringOrder()
    ensures TotalPreorder(StringLeq)
    ensures forall a, b :: StringLeq(a, b) && StringLeq(b, a) ==> a == b
  {
    forall a, b { StringTotal(a, b); }
    forall a, b, c | StringLeq(a, b) && StringLeq(b, c) { StringTransitive(a, b, c); }
  }

  lemma {:induction false} SortMultiset<T(!new)>(leq: (T, T) -> bool, xs: seq<T>)
    ensures multiset(Sort(leq, xs)) == multiset(xs)
  {
    if xs != [] {
      SortMultiset(leq, xs[1..]);
      MergeMultiset(leq, [xs[0]], Sort(leq, xs[1..]));
      assert xs == [xs[0]] + xs[1..];
    }
  }

  lemma {:induction false} MergeMultiset<T(!new)>(leq: (T, T) -> bool, xs: seq<T>, ys: seq<T>)
    ensures multiset(Merge(leq, xs, ys)) == multiset(xs) + multiset(ys)
    decreases |xs| + |ys|
  {
    if xs != [] && ys != [] {
      MultisetCons(xs);
      MultisetCons(ys);
      if leq(xs[0], ys[0]) {
        MergeMultiset(leq, xs[1..], ys);
      } else {
        MergeMultiset(leq, xs, ys[1..]);
      }
    }
  }

  lemma {:induction false} MultisetCons<T>(s: seq<T>)
    requires s != []
    ensures multiset(s) == multiset{s[0]} + multiset(s[1..])
  {
    assert s == [s[0]] + s[1..];
  }

  /** On strings the sorted list is a canonical form of the multiset of its elements. */
  lemma {:induction false} SortedStringsCanonical(xs: seq<string>, ys: seq<string>)
    ensures Sort(StringLeq, xs) == Sort(StringLeq, ys) <==> multiset(xs) == multiset(ys)
  {
    StringOrder();
    SortMultiset(StringLeq, xs);
    SortMultiset(StringLeq, ys);
    if multiset(xs) == multiset(ys) {
      SortSorted(StringLeq, xs);
      SortSorted(StringLeq, ys);
      forall e ensures SameKey(StringLeq, e, Sort(StringLeq, xs)) == SameKey(StringLeq, e, Sort(StringLeq, ys)) {
        SameKeyRepeats(e, Sort(StringLeq, xs));
        SameKeyRepeats(e, Sort(StringLeq, ys));
      }
      SortedEqual(StringLeq, Sort(StringLeq, xs), Sort(StringLeq, ys));
    }
  }

  lemma {:induction false} SameKeyRepeats(e: string, s: seq<string>)
    ensures SameKey(StringLeq, e, s) == seq(multiset(s)[e], i => e)
  {
    StringOrder();
    if s != [] {
      SameKeyRepeats(e, s[1..]);
      assert s == [s[0]] + s[1..];
      assert multiset(s) == multiset{s[0]} + multiset(s[1..]);
    }
  }
}
