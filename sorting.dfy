/** Python's `list.sort(key=..., reverse=True)`: a stable sort into
    non-increasing key order, written as an insertion sort on sequences.
    Like Python, the key of every element is computed once, up front: the
    sort works on (key, element) pairs. */
module Sorting {
  import opened Common

  datatype Keyed<T> = Keyed(key: real, item: T)

  function Items<T>(s: seq<Keyed<T>>): (r: seq<T>)
    ensures |r| == |s|
    ensures forall i :: 0 <= i < |s| ==> r[i] == s[i].item
  {
    if s == [] then [] else [s[0].item] + Items(s[1..])
  }

  ghost predicate SortedDesc<T>(s: seq<Keyed<T>>) {
    forall i, j :: 0 <= i < j < |s| ==> s[i].key >= s[j].key
  }

  /** `[x]` when the key of `x` is `k`, otherwise nothing. */
  function KeepIf<T>(x: Keyed<T>, k: real): seq<Keyed<T>> {
    if x.key == k then [x] else []
  }

  /** The elements of `s` whose key is exactly `k`, in order. */
  function WithKey<T>(s: seq<Keyed<T>>, k: real): (r: seq<Keyed<T>>)
    ensures |r| <= |s|
  {
    if s == [] then [] else KeepIf(s[0], k) + WithKey(s[1..], k)
  }

  lemma {:induction false} WithKeyCons<T>(x: Keyed<T>, s: seq<Keyed<T>>, k: real)
    ensures WithKey([x] + s, k) == KeepIf(x, k) + WithKey(s, k)
  {
    assert ([x] + s)[0] == x;
    assert ([x] + s)[1..] == s;
  }

  /** Places `x` after every element whose key is at least its own. */
  function InsertDesc<T>(x: Keyed<T>, s: seq<Keyed<T>>): (r: seq<Keyed<T>>)
    ensures |r| == |s| + 1
  {
    if s == [] then [x]
    else if s[0].key >= x.key then [s[0]] + InsertDesc(x, s[1..])
    else [x] + s
  }

  lemma {:induction false} InsertDescPermutes<T>(x: Keyed<T>, s: seq<Keyed<T>>)
    ensures multiset(InsertDesc(x, s)) == multiset(s) + multiset{x}
  {
    if s != [] && s[0].key >= x.key {
      InsertDescPermutes(x, s[1..]);
      assert s == [s[0]] + s[1..];
    }
  }

  /** `sorted(s, key=key, reverse=True)` */
  function SortDesc<T>(s: seq<Keyed<T>>): (r: seq<Keyed<T>>)
    ensures |r| == |s|
  {
    if s == [] then [] else InsertDesc(s[|s| - 1], SortDesc(s[..|s| - 1]))
  }

  /** The sort rearranges its input and nothing more. */
  lemma {:induction false} SortDescPermutes<T>(s: seq<Keyed<T>>)
    ensures multiset(SortDesc(s)) == multiset(s)
  {
    if s != [] {
      SortDescPermutes(s[..|s| - 1]);
      InsertDescPermutes(s[|s| - 1], SortDesc(s[..|s| - 1]));
      assert s == s[..|s| - 1] + [s[|s| - 1]];
    }
  }

  lemma {:induction false} InsertDescSorted<T>(x: Keyed<T>, s: seq<Keyed<T>>)
    requires SortedDesc(s)
    ensures SortedDesc(InsertDesc(x, s))
  {
    if s != [] && s[0].key >= x.key {
      InsertDescSorted(x, s[1..]);
      InsertDescPermutes(x, s[1..]);
      var r := InsertDesc(x, s);
      var t := InsertDesc(x, s[1..]);
      assert r == [s[0]] + t;
      forall j | 0 < j < |r| ensures r[0].key >= r[j].key {
        assert r[j] in multiset(t);
        assert r[j] in multiset(s[1..]) || r[j] == x;
        if r[j] != x {
          var m :| 0 <= m < |s[1..]| && s[1..][m] == r[j];
          assert s[m + 1] == r[j];
        }
      }
    }
  }

  lemma {:induction false} WithKeyConcat<T>(a: seq<Keyed<T>>, b: seq<Keyed<T>>, k: real)
    ensures WithKey(a + b, k) == WithKey(a, k) + WithKey(b, k)
  {
    if a != [] {
      WithKeyConcat(a[1..], b, k);
      assert (a + b)[0] == a[0];
      assert (a + b)[1..] == a[1..] + b;
    } else {
      assert a + b == b;
    }
  }

  lemma {:induction false} SortedTail<T>(s: seq<Keyed<T>>)
    requires s != [] && SortedDesc(s)
    ensures SortedDesc(s[1..])
  {
    forall i, j | 0 <= i < j < |s[1..]| ensures s[1..][i].key >= s[1..][j].key {
      assert s[1..][i] == s[i + 1] && s[1..][j] == s[j + 1];
    }
  }

  lemma {:induction false} InsertDescWithKey<T>(x: Keyed<T>, s: seq<Keyed<T>>, k: real)
    requires SortedDesc(s)
    ensures WithKey(InsertDesc(x, s), k) == WithKey(s, k) + KeepIf(x, k)
  {
    if s == [] {
      WithKeyCons(x, [], k);
    } else if s[0].key >= x.key {
      SortedTail(s);
      InsertDescWithKey(x, s[1..], k);
      InsertDescAfter(x, s, k);
    } else {
      InsertDescBefore(x, s, k);
    }
  }

  lemma {:induction false} InsertDescAfter<T>(x: Keyed<T>, s: seq<Keyed<T>>, k: real)
    requires s != [] && s[0].key >= x.key
    requires WithKey(InsertDesc(x, s[1..]), k) == WithKey(s[1..], k) + KeepIf(x, k)
    ensures WithKey(InsertDesc(x, s), k) == WithKey(s, k) + KeepIf(x, k)
  {
    var t := InsertDesc(x, s[1..]);
    calc {
      WithKey(InsertDesc(x, s), k);
      { assert InsertDesc(x, s) == [s[0]] + t; }
      WithKey([s[0]] + t, k);
      { WithKeyCons(s[0], t, k); }
      KeepIf(s[0], k) + WithKey(t, k);
      KeepIf(s[0], k) + (WithKey(s[1..], k) + KeepIf(x, k));
      (KeepIf(s[0], k) + WithKey(s[1..], k)) + KeepIf(x, k);
      { WithKeyCons(s[0], s[1..], k); assert s == [s[0]] + s[1..]; }
      WithKey(s, k) + KeepIf(x, k);
    }
  }

  lemma {:induction false} InsertDescBefore<T>(x: Keyed<T>, s: seq<Keyed<T>>, k: real)
    requires SortedDesc(s) && s != [] && s[0].key < x.key
    ensures WithKey(InsertDesc(x, s), k) == WithKey(s, k) + KeepIf(x, k)
  {
    assert InsertDesc(x, s) == [x] + s;
    WithKeyCons(x, s, k);
    if x.key == k {
      assert forall i :: 0 <= i < |s| ==> s[i].key <= s[0].key;
      WithKeyAbsent(s, k);
    }
  }

  lemma {:induction false} WithKeyAbsent<T>(s: seq<Keyed<T>>, k: real)
    requires forall i :: 0 <= i < |s| ==> s[i].key != k
    ensures WithKey(s, k) == []
  {
    if s != [] {
      WithKeyAbsent(s[1..], k);
    }
  }

  /** The sort puts its result in non-increasing key order. */
  lemma {:induction false} SortDescSorted<T>(s: seq<Keyed<T>>)
    ensures SortedDesc(SortDesc(s))
  {
    if s != [] {
      SortDescSorted(s[..|s| - 1]);
      InsertDescSorted(s[|s| - 1], SortDesc(s[..|s| - 1]));
    }
  }

  /** The sort is stable: elements with equal keys keep their input order. */
  lemma {:induction false} SortDescStable<T>(s: seq<Keyed<T>>, k: real)
    ensures WithKey(SortDesc(s), k) == WithKey(s, k)
  {
    if s != [] {
      var init, last := s[..|s| - 1], s[|s| - 1];
      var sorted := SortDesc(init);
      assert SortDesc(s) == InsertDesc(last, sorted);
      SortDescStable(init, k);
      SortDescSorted(init);
      InsertDescWithKey(last, sorted, k);
      assert s == init + [last];
      WithKeyConcat(init, [last], k);
      WithKeyCons(last, [], k);
      assert [last] + [] == [last];
    }
  }

  // ---------------------------------------------------------------------
  // Sorting by a key function
  // ---------------------------------------------------------------------

  /** Pairs every element with its key. */
  function Decorate<T>(key: T -> real, s: seq<T>): (r: seq<Keyed<T>>)
    ensures |r| == |s|
    ensures forall i :: 0 <= i < |s| ==> r[i] == Keyed(key(s[i]), s[i])
  {
    if s == [] then [] else [Keyed(key(s[0]), s[0])] + Decorate(key, s[1..])
  }

  /** Every pair carries the key of its own element. */
  ghost predicate Decorated<T>(key: T -> real, t: seq<Keyed<T>>) {
    forall i :: 0 <= i < |t| ==> t[i].key == key(t[i].item)
  }

  /** `sorted(s, key=key, reverse=True)` */
  function SortBy<T>(key: T -> real, s: seq<T>): seq<T> {
    Items(SortDesc(Decorate(key, s)))
  }

  lemma DecorateItems<T>(key: T -> real, s: seq<T>)
    ensures Items(Decorate(key, s)) == s
  {
  }

  lemma SortDescDecorated<T>(key: T -> real, t: seq<Keyed<T>>)
    requires Decorated(key, t)
    ensures Decorated(key, SortDesc(t))
  {
    var r := SortDesc(t);
    SortDescPermutes(t);
    forall i | 0 <= i < |r| ensures r[i].key == key(r[i].item) {
      assert r[i] in multiset(t);
      var k :| 0 <= k < |t| && t[k] == r[i];
    }
  }

  /** On decorated pairs, an element occurs in the items as often as its
      pair occurs in the pairs. */
  lemma {:induction false} ItemsCount<T>(key: T -> real, t: seq<Keyed<T>>, x: T)
    requires Decorated(key, t)
    ensures multiset(Items(t))[x] == multiset(t)[Keyed(key(x), x)]
  {
    if t != [] {
      assert Decorated(key, t[1..]) by {
        forall i | 0 <= i < |t[1..]| ensures t[1..][i].key == key(t[1..][i].item) {
          assert t[1..][i] == t[i + 1];
        }
      }
      ItemsCount(key, t[1..], x);
      assert t == [t[0]] + t[1..];
      assert Items(t) == [t[0].item] + Items(t[1..]);
    }
  }

  /** Sorting by key rearranges the input and nothing more. */
  lemma SortByPermutes<T>(key: T -> real, s: seq<T>)
    ensures multiset(SortBy(key, s)) == multiset(s)
  {
    var d := Decorate(key, s);
    SortDescPermutes(d);
    SortDescDecorated(key, d);
    DecorateItems(key, s);
    ItemsPermutes(key, SortDesc(d), d);
  }

  /** Rearranged decorated pairs carry rearranged items. */
  lemma ItemsPermutes<T>(key: T -> real, a: seq<Keyed<T>>, b: seq<Keyed<T>>)
    requires Decorated(key, a) && Decorated(key, b) && multiset(a) == multiset(b)
    ensures multiset(Items(a)) == multiset(Items(b))
  {
    forall x ensures multiset(Items(a))[x] == multiset(Items(b))[x] {
      ItemsCount(key, a, x);
      ItemsCount(key, b, x);
    }
  }

  /** Sorting by key puts the result in non-increasing key order. */
  lemma SortBySorted<T>(key: T -> real, s: seq<T>)
    ensures forall i, j :: 0 <= i < j < |SortBy(key, s)| ==> key(SortBy(key, s)[i]) >= key(SortBy(key, s)[j])
  {
    var d := Decorate(key, s);
    SortDescSorted(d);
    SortDescDecorated(key, d);
  }

  lemma {:induction false} ItemsWithKey<T>(key: T -> real, t: seq<Keyed<T>>, k: real, p: T -> bool)
    requires Decorated(key, t)
    requires forall x :: p(x) <==> key(x) == k
    ensures Items(WithKey(t, k)) == Filter(p, Items(t))
  {
    if t != [] {
      assert Decorated(key, t[1..]) by {
        forall i | 0 <= i < |t[1..]| ensures t[1..][i].key == key(t[1..][i].item) {
          assert t[1..][i] == t[i + 1];
        }
      }
      ItemsWithKey(key, t[1..], k, p);
      assert Items(t)[1..] == Items(t[1..]);
      ItemsConcat(KeepIf(t[0], k), WithKey(t[1..], k));
    }
  }

  lemma ItemsConcat<T>(a: seq<Keyed<T>>, b: seq<Keyed<T>>)
    ensures Items(a + b) == Items(a) + Items(b)
  {
    assert forall i :: 0 <= i < |a + b| ==> Items(a + b)[i] == (Items(a) + Items(b))[i];
  }

  /** Sorting by key is stable: the elements of any one key keep their
      input order. */
  lemma SortByStable<T>(key: T -> real, s: seq<T>, k: real, p: T -> bool)
    requires forall x :: p(x) <==> key(x) == k
    ensures Filter(p, SortBy(key, s)) == Filter(p, s)
  {
    var d := Decorate(key, s);
    SortDescDecorated(key, d);
    ItemsWithKey(key, SortDesc(d), k, p);
    SortDescStable(d, k);
    ItemsWithKey(key, d, k, p);
    DecorateItems(key, s);
  }
}
