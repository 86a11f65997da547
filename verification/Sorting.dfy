/** Python's `sorted(xs, key=...)`: a stable sort on a pair key. */
module Sorting {

  type Key = (real, real)

  predicate Le(a: Key, b: Key) {
    a.0 < b.0 || (a.0 == b.0 && a.1 <= b.1)
  }

  ghost predicate Sorted<T(!new)>(xs: seq<T>, key: T -> Key) {
    forall i, j | 0 <= i < j < |xs| :: Le(key(xs[i]), key(xs[j]))
  }

  /** `x`, which came before all of `xs`, goes in front of the first element that is not smaller. */
  function Insert<T>(x: T, xs: seq<T>, key: T -> Key): seq<T> {
    if xs == [] || Le(key(x), key(xs[0])) then [x] + xs
    else [xs[0]] + Insert(x, xs[1..], key)
  }

  function Sort<T>(xs: seq<T>, key: T -> Key): seq<T> {
    if xs == [] then [] else Insert(xs[0], Sort(xs[1..], key), key)
  }

  /** The elements with key `k`, in order: what a stable sort must not disturb. */
  function WithKey<T>(xs: seq<T>, key: T -> Key, k: Key): seq<T> {
    if xs == [] then []
    else (if key(xs[0]) == k then [xs[0]] else []) + WithKey(xs[1..], key, k)
  }

  lemma {:induction false} InsertSorted<T(!new)>(x: T, xs: seq<T>, key: T -> Key)
    requires Sorted(xs, key)
    ensures Sorted(Insert(x, xs, key), key)
    ensures multiset(Insert(x, xs, key)) == multiset{x} + multiset(xs)
  {
    if xs == [] || Le(key(x), key(xs[0])) {
      assert forall j | 0 <= j < |xs| :: Le(key(x), key(xs[j]));
    } else {
      var rest := Insert(x, xs[1..], key);
      InsertSorted(x, xs[1..], key);
      assert xs == [xs[0]] + xs[1..];
      forall j | 0 <= j < |rest| ensures Le(key(xs[0]), key(rest[j])) {
        assert rest[j] in multiset(rest);
        if rest[j] != x {
          assert rest[j] in multiset(xs[1..]);
          var m :| 1 <= m < |xs| && xs[m] == rest[j];
        }
      }
    }
  }

  lemma {:induction false} InsertKeepsOrder<T(!new)>(x: T, xs: seq<T>, key: T -> Key, k: Key)
    requires Sorted(xs, key)
    ensures WithKey(Insert(x, xs, key), key, k) == (if key(x) == k then [x] else []) + WithKey(xs, key, k)
  {
    if xs == [] || Le(key(x), key(xs[0])) {
      assert ([x] + xs)[1..] == xs;
    } else {
      InsertKeepsOrder(x, xs[1..], key, k);
      var rest := Insert(x, xs[1..], key);
      assert ([xs[0]] + rest)[1..] == rest;
    }
  }

  lemma {:induction false} SortSorts<T(!new)>(xs: seq<T>, key: T -> Key)
    ensures Sorted(Sort(xs, key), key)
    ensures multiset(Sort(xs, key)) == multiset(xs)
    ensures |Sort(xs, key)| == |xs|
  {
    if xs != [] {
      SortSorts(xs[1..], key);
      InsertSorted(xs[0], Sort(xs[1..], key), key);
      assert xs == [xs[0]] + xs[1..];
    }
    assert |multiset(Sort(xs, key))| == |Sort(xs, key)| && |multiset(xs)| == |xs|;
  }

  lemma {:induction false} SortIsStable<T(!new)>(xs: seq<T>, key: T -> Key, k: Key)
    ensures WithKey(Sort(xs, key), key, k) == WithKey(xs, key, k)
  {
    if xs != [] {
      SortSorts(xs[1..], key);
      SortIsStable(xs[1..], key, k);
      InsertKeepsOrder(xs[0], Sort(xs[1..], key), key, k);
    }
  }

  lemma {:induction false} WithKeyConcat<T>(xs: seq<T>, ys: seq<T>, key: T -> Key, k: Key)
    ensures WithKey(xs + ys, key, k) == WithKey(xs, key, k) + WithKey(ys, key, k)
  {
    if xs == [] {
      assert xs + ys == ys;
    } else {
      assert (xs + ys)[1..] == xs[1..] + ys;
      WithKeyConcat(xs[1..], ys, key, k);
    }
  }

  lemma {:induction false} WithKeyMember<T>(xs: seq<T>, key: T -> Key, i: nat)
    requires i < |xs|
    ensures WithKey(xs, key, key(xs[i])) != []
  {
    if i > 0 {
      assert xs[i] == xs[1..][i - 1];
      WithKeyMember(xs[1..], key, i - 1);
    }
  }

  lemma {:induction false} WithKeyFirst<T>(xs: seq<T>, key: T -> Key, k: Key)
    requires WithKey(xs, key, k) != []
    ensures exists i | 0 <= i < |xs| :: key(xs[i]) == k
  {
    if key(xs[0]) != k {
      WithKeyFirst(xs[1..], key, k);
      var i :| 0 <= i < |xs[1..]| && key(xs[1..][i]) == k;
      assert key(xs[i + 1]) == k;
    }
  }

  lemma {:induction false} NoKeysNoElements<T>(xs: seq<T>, key: T -> Key)
    requires forall k :: WithKey(xs, key, k) == []
    ensures xs == []
  {
    if xs != [] {
      WithKeyMember(xs, key, 0);
      assert false;
    }
  }

  /** A sorted list is determined by its elements of each key, in order. */
  lemma {:induction false} StableSortUnique<T(!new)>(xs: seq<T>, ys: seq<T>, key: T -> Key)
    requires Sorted(xs, key) && Sorted(ys, key)
    requires forall k :: WithKey(xs, key, k) == WithKey(ys, key, k)
    ensures xs == ys
  {
    if xs == [] {
      forall k ensures WithKey(ys, key, k) == [] {
        assert WithKey(xs, key, k) == [];
      }
      NoKeysNoElements(ys, key);
    } else {
      WithKeyMember(xs, key, 0);
      WithKeyFirst(ys, key, key(xs[0]));
      WithKeyMember(ys, key, 0);
      WithKeyFirst(xs, key, key(ys[0]));
      assert Le(key(ys[0]), key(xs[0])) && Le(key(xs[0]), key(ys[0]));
      var k0 := key(xs[0]);
      assert key(ys[0]) == k0;
      assert WithKey(xs, key, k0)[0] == xs[0] && WithKey(ys, key, k0)[0] == ys[0];
      forall k ensures WithKey(xs[1..], key, k) == WithKey(ys[1..], key, k) {
        assert WithKey(xs, key, k) == WithKey(ys, key, k);
        if k == k0 {
          assert WithKey(xs, key, k)[1..] == WithKey(xs[1..], key, k);
          assert WithKey(ys, key, k)[1..] == WithKey(ys[1..], key, k);
        } else {
          assert WithKey(xs, key, k) == WithKey(xs[1..], key, k);
          assert WithKey(ys, key, k) == WithKey(ys[1..], key, k);
        }
      }
      StableSortUnique(xs[1..], ys[1..], key);
      assert xs == [xs[0]] + xs[1..] && ys == [ys[0]] + ys[1..];
    }
  }

  /** No two different elements share a key. */
  ghost predicate KeysDistinct<T(!new)>(xs: seq<T>, key: T -> Key) {
    forall x, y | x in xs && y in xs :: key(x) == key(y) ==> x == y
  }

  /** When no two different elements share a key, order and contents determine the list. */
  lemma {:induction false} SortedPermUnique<T(!new)>(xs: seq<T>, ys: seq<T>, key: T -> Key)
    requires Sorted(xs, key) && Sorted(ys, key) && multiset(xs) == multiset(ys)
    requires KeysDistinct(xs, key)
    ensures xs == ys
  {
    if xs == [] {
      assert |ys| == |multiset(ys)| == |multiset(xs)|;
    } else {
      assert xs[0] in multiset(ys);
      assert ys != [] && ys[0] in multiset(ys) && ys[0] in multiset(xs);
      assert Le(key(ys[0]), key(xs[0])) && Le(key(xs[0]), key(ys[0]));
      assert xs[0] == ys[0];
      assert xs == [xs[0]] + xs[1..] && ys == [ys[0]] + ys[1..];
      assert multiset(xs[1..]) == multiset(xs) - multiset{xs[0]};
      assert multiset(ys[1..]) == multiset(ys) - multiset{ys[0]};
      SortedPermUnique(xs[1..], ys[1..], key);
    }
  }

  /** Sorting what is already in order changes nothing. */
  lemma {:induction false} SortOfSorted<T(!new)>(xs: seq<T>, key: T -> Key)
    requires Sorted(xs, key)
    ensures Sort(xs, key) == xs
  {
    SortSorts(xs, key);
    forall k ensures WithKey(Sort(xs, key), key, k) == WithKey(xs, key, k) {
      SortIsStable(xs, key, k);
    }
    StableSortUnique(Sort(xs, key), xs, key);
  }

  lemma {:induction false} InsertLast<T(!new)>(x: T, xs: seq<T>, key: T -> Key)
    requires xs != [] && Le(key(x), key(xs[|xs| - 1]))
    ensures var ys := Insert(x, xs, key); |ys| == |xs| + 1 && ys[|xs|] == xs[|xs| - 1]
  {
    if !Le(key(x), key(xs[0])) {
      InsertLast(x, xs[1..], key);
    }
  }

  /** Of several greatest elements the last one stays last. */
  lemma {:induction false} SortLast<T(!new)>(xs: seq<T>, x: T, key: T -> Key)
    requires forall y | y in xs :: Le(key(y), key(x))
    ensures var ys := Sort(xs + [x], key); |ys| == |xs| + 1 && ys[|xs|] == x
  {
    if xs == [] {
      assert xs + [x] == [x];
    } else {
      assert (xs + [x])[1..] == xs[1..] + [x];
      SortLast(xs[1..], x, key);
      InsertLast(xs[0], Sort(xs[1..] + [x], key), key);
    }
  }
}
