/** Stable sorting of keyed elements: what a stable sort returns, and that
    nothing else qualifies. */
module StableSort {

  /** A consistent comparator: "less" is a strict weak order, ties being allowed. */
  ghost predicate StrictWeakOrder<K(!new)>(less: (K, K) -> bool) {
    && (forall a, b :: less(a, b) ==> !less(b, a))
    && (forall a, b, c :: !less(a, b) && !less(b, c) ==> !less(a, c))
  }

  predicate Ties<K>(less: (K, K) -> bool, a: K, b: K) {
    !less(a, b) && !less(b, a)
  }

  /** Puts x after every element it does not precede. */
  function Insert<K(!new), V(!new)>(less: (K, K) -> bool, s: seq<(K, V)>, x: (K, V)): (r: seq<(K, V)>)
    ensures |r| == |s| + 1
    ensures forall e :: e in r <==> e in s || e == x
  {
    if s == [] then [x]
    else if less(x.0, s[0].0) then [x] + s
    else
      assert s == [s[0]] + s[1..];
      [s[0]] + Insert(less, s[1..], x)
  }

  function Sort<K(!new), V(!new)>(less: (K, K) -> bool, s: seq<(K, V)>): (r: seq<(K, V)>)
    ensures |r| == |s|
    ensures forall e :: e in r <==> e in s
  {
    if s == [] then []
    else
      assert s == s[..|s| - 1] + [s[|s| - 1]];
      Insert(less, Sort(less, s[..|s| - 1]), s[|s| - 1])
  }

  ghost predicate Sorted<K(!new), V(!new)>(less: (K, K) -> bool, s: seq<(K, V)>) {
    forall i, j :: 0 <= i < j < |s| ==> !less(s[j].0, s[i].0)
  }

  /** The elements whose key ties with k, in their order. */
  function Class<K(!new), V(!new)>(less: (K, K) -> bool, s: seq<(K, V)>, k: K): seq<(K, V)> {
    if s == [] then []
    else (if Ties(less, s[0].0, k) then [s[0]] else []) + Class(less, s[1..], k)
  }

  /** r is a stable rearrangement of s: every class of ties keeps its elements and their order. */
  ghost predicate SameClasses<K(!new), V(!new)>(less: (K, K) -> bool, r: seq<(K, V)>, s: seq<(K, V)>) {
    forall k :: Class(less, r, k) == Class(less, s, k)
  }

  lemma ClassOfCons<K(!new), V(!new)>(less: (K, K) -> bool, e: (K, V), rest: seq<(K, V)>, k: K)
    ensures Class(less, [e] + rest, k) == (if Ties(less, e.0, k) then [e] else []) + Class(less, rest, k)
  {
    assert ([e] + rest)[1..] == rest;
  }

  lemma {:induction false} ClassConcat<K(!new), V(!new)>(less: (K, K) -> bool, a: seq<(K, V)>, b: seq<(K, V)>, k: K)
    ensures Class(less, a + b, k) == Class(less, a, k) + Class(less, b, k)
  {
    if a == [] {
      assert a + b == b;
    } else {
      ClassConcat(less, a[1..], b, k);
      assert a + b == [a[0]] + (a[1..] + b);
      ClassOfCons(less, a[0], a[1..] + b, k);
    }
  }

  lemma {:induction false} NoTiesNoClass<K(!new), V(!new)>(less: (K, K) -> bool, s: seq<(K, V)>, k: K)
    requires forall i :: 0 <= i < |s| ==> !Ties(less, s[i].0, k)
    ensures Class(less, s, k) == []
  {
    if s != [] {
      NoTiesNoClass(less, s[1..], k);
    }
  }

  lemma {:induction false} InsertSorted<K(!new), V(!new)>(less: (K, K) -> bool, s: seq<(K, V)>, x: (K, V))
    requires StrictWeakOrder(less) && Sorted(less, s)
    ensures Sorted(less, Insert(less, s, x))
  {
    var r := Insert(less, s, x);
    if s != [] && !less(x.0, s[0].0) {
      InsertSorted(less, s[1..], x);
      var rest := Insert(less, s[1..], x);
      forall j | 0 <= j < |rest| ensures !less(rest[j].0, s[0].0) {
        assert rest[j] in s[1..] || rest[j] == x;
      }
    }
  }

  /** Whatever precedes the head of a sorted list precedes, and ties with nothing in, the whole list. */
  lemma PrecedesClass<K(!new)>(less: (K, K) -> bool, x: K, head: K, y: K, k: K)
    requires StrictWeakOrder(less)
    requires less(x, head) && !less(y, head) && Ties(less, x, k)
    ensures !Ties(less, y, k)
  {
    assert less(x, y);
    assert less(k, y);
  }

  lemma InsertAtHead<K(!new), V(!new)>(less: (K, K) -> bool, s: seq<(K, V)>, x: (K, V), k: K)
    requires StrictWeakOrder(less) && Sorted(less, s) && s != [] && less(x.0, s[0].0)
    ensures Class(less, [x] + s, k) == Class(less, s, k) + (if Ties(less, x.0, k) then [x] else [])
  {
    assert ([x] + s)[1..] == s;
    if Ties(less, x.0, k) {
      forall i | 0 <= i < |s| ensures !Ties(less, s[i].0, k) {
        PrecedesClass(less, x.0, s[0].0, s[i].0, k);
      }
      NoTiesNoClass(less, s, k);
    }
  }

  /** Insertion goes to the end of the class of x and leaves the other classes alone. */
  lemma {:induction false} InsertClass<K(!new), V(!new)>(less: (K, K) -> bool, s: seq<(K, V)>, x: (K, V), k: K)
    requires StrictWeakOrder(less) && Sorted(less, s)
    ensures Class(less, Insert(less, s, x), k) == Class(less, s, k) + (if Ties(less, x.0, k) then [x] else [])
  {
    if s == [] {
      ClassOfCons(less, x, [], k);
      assert [x] + [] == [x];
    } else if less(x.0, s[0].0) {
      InsertAtHead(less, s, x, k);
    } else {
      InsertClass(less, s[1..], x, k);
      ClassOfCons(less, s[0], Insert(less, s[1..], x), k);
    }
  }

  /** Sort returns a sorted, stable rearrangement. */
  lemma {:induction false} SortIsStable<K(!new), V(!new)>(less: (K, K) -> bool, s: seq<(K, V)>)
    requires StrictWeakOrder(less)
    ensures Sorted(less, Sort(less, s)) && SameClasses(less, Sort(less, s), s)
    decreases |s|
  {
    if s != [] {
      var init, last := s[..|s| - 1], s[|s| - 1];
      SortIsStable(less, init);
      InsertSorted(less, Sort(less, init), last);
      forall k ensures Class(less, Sort(less, s), k) == Class(less, s, k) {
        InsertClass(less, Sort(less, init), last, k);
        ClassConcat(less, init, [last], k);
        assert s == init + [last];
        assert Class(less, [last], k) == if Ties(less, last.0, k) then [last] else [];
      }
    }
  }

  lemma {:induction false} ClassMembers<K(!new), V(!new)>(less: (K, K) -> bool, s: seq<(K, V)>, k: K)
    ensures forall e :: e in Class(less, s, k) <==> e in s && Ties(less, e.0, k)
  {
    if s != [] {
      ClassMembers(less, s[1..], k);
      assert s == [s[0]] + s[1..];
    }
  }

  lemma HeadIsShared<K(!new), V(!new)>(less: (K, K) -> bool, a: seq<(K, V)>, b: seq<(K, V)>)
    requires StrictWeakOrder(less) && SameClasses(less, a, b) && a != []
    ensures b != [] && a[0] in b
  {
    assert a[0] in Class(less, a, a[0].0);
    ClassMembers(less, b, a[0].0);
  }

  /** Two sorted lists with the same classes are the same list, so the stable sort is unique. */
  lemma {:induction false} SortedStableUnique<K(!new), V(!new)>(less: (K, K) -> bool, a: seq<(K, V)>, b: seq<(K, V)>)
    requires StrictWeakOrder(less) && Sorted(less, a) && Sorted(less, b) && SameClasses(less, a, b)
    ensures a == b
    decreases |a|
  {
    assert SameClasses(less, b, a);
    if a == [] {
      if b != [] {
        HeadIsShared(less, b, a);
      }
    } else {
      var k := a[0].0;
      HeadIsShared(less, a, b);
      HeadIsShared(less, b, a);
      assert Ties(less, k, b[0].0);
      assert Class(less, a, k)[0] == a[0] && Class(less, b, k)[0] == b[0];
      forall j ensures Class(less, a[1..], j) == Class(less, b[1..], j) {
        var head := if Ties(less, a[0].0, j) then [a[0]] else [];
        assert Class(less, a, j) == head + Class(less, a[1..], j);
        assert Class(less, b, j) == head + Class(less, b[1..], j);
        assert (head + Class(less, a[1..], j))[|head|..] == Class(less, a[1..], j);
        assert (head + Class(less, b[1..], j))[|head|..] == Class(less, b[1..], j);
      }
      SortedStableUnique(less, a[1..], b[1..]);
    }
  }
}
