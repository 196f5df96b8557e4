/** Python's `sorted`/`list.sort`: a stable sort by a total preorder. `reverse=True`
    keeps equal elements in input order too, so a descending sort by a key is the
    stable sort by "key(a) >= key(b)". The code-point order of strings, which
    `sorted` uses on names, is here as well. */
module Sorting {

  /** `le` is total and transitive: the comparison `sorted` relies on. */
  ghost predicate TotalPreorder<T(!new)>(le: (T, T) -> bool) {
    (forall a, b :: le(a, b) || le(b, a))
    && (forall a, b, c :: le(a, b) && le(b, c) ==> le(a, c))
  }

  ghost predicate Sorted<T>(s: seq<T>, le: (T, T) -> bool) {
    forall i, j :: 0 <= i < j < |s| ==> le(s[i], s[j])
  }

  /** `a` and `b` compare equal. */
  predicate Tied<T>(le: (T, T) -> bool, a: T, b: T) {
    le(a, b) && le(b, a)
  }

  /** The elements of `s` that compare equal to `y`, in the order of `s`. */
  function TiesOf<T>(s: seq<T>, le: (T, T) -> bool, y: T): seq<T> {
    if s == [] then []
    else TiesOf(s[..|s| - 1], le, y) + (if Tied(le, s[|s| - 1], y) then [s[|s| - 1]] else [])
  }

  /** Places `x` after every element of the sorted `s` that is not greater than it. */
  function Insert<T>(x: T, s: seq<T>, le: (T, T) -> bool): (r: seq<T>)
    ensures |r| == |s| + 1
    ensures multiset(r) == multiset(s) + multiset{x}
  {
    if s == [] || le(s[|s| - 1], x) then s + [x]
    else
      assert s == s[..|s| - 1] + [s[|s| - 1]];
      Insert(x, s[..|s| - 1], le) + [s[|s| - 1]]
  }

  /** `sorted(s)` with comparison `le`: insertion of each element in input order. */
  function SortBy<T>(s: seq<T>, le: (T, T) -> bool): (r: seq<T>)
    ensures |r| == |s|
    ensures multiset(r) == multiset(s)
  {
    if s == [] then []
    else
      assert s == s[..|s| - 1] + [s[|s| - 1]];
      Insert(s[|s| - 1], SortBy(s[..|s| - 1], le), le)
  }

  lemma {:induction false} InsertSorted<T(!new)>(x: T, s: seq<T>, le: (T, T) -> bool)
    requires TotalPreorder(le) && Sorted(s, le)
    ensures Sorted(Insert(x, s, le), le)
  {
    if s == [] || le(s[|s| - 1], x) {
    } else {
      var pre, last := s[..|s| - 1], s[|s| - 1];
      InsertSorted(x, pre, le);
      var r' := Insert(x, pre, le);
      forall i | 0 <= i < |r'| ensures le(r'[i], last) {
        assert r'[i] in multiset(pre) + multiset{x};
        if r'[i] in pre {
          var k :| 0 <= k < |pre| && pre[k] == r'[i];
          assert s[k] == pre[k];
        }
      }
    }
  }

  /** The result of `SortBy` is ordered by `le`. */
  lemma {:induction false} SortBySorted<T(!new)>(s: seq<T>, le: (T, T) -> bool)
    requires TotalPreorder(le)
    ensures Sorted(SortBy(s, le), le)
  {
    if s != [] {
      SortBySorted(s[..|s| - 1], le);
      InsertSorted(s[|s| - 1], SortBy(s[..|s| - 1], le), le);
    }
  }

  /** The first `k` elements of a sorted sequence are sorted, come before
      the others, and are drawn from it. */
  lemma SortedPrefix<T>(s: seq<T>, le: (T, T) -> bool, k: nat)
    requires k <= |s| && Sorted(s, le)
    ensures Sorted(s[..k], le)
    ensures forall i, j :: 0 <= i < k <= j < |s| ==> le(s[..k][i], s[j])
    ensures multiset(s[..k]) <= multiset(s)
  {
    assert s == s[..k] + s[k..];
    assert multiset(s) == multiset(s[..k]) + multiset(s[k..]);
  }

  lemma SortedInit<T>(s: seq<T>, le: (T, T) -> bool)
    requires s != [] && Sorted(s, le)
    ensures Sorted(s[..|s| - 1], le)
  {
    var pre := s[..|s| - 1];
    forall i, j | 0 <= i < j < |pre| ensures le(pre[i], pre[j]) {
      assert pre[i] == s[i] && pre[j] == s[j];
    }
  }

  lemma TiesSnoc<T>(s: seq<T>, z: T, le: (T, T) -> bool, y: T)
    ensures TiesOf(s + [z], le, y) == TiesOf(s, le, y) + (if Tied(le, z, y) then [z] else [])
  {
    assert (s + [z])[..|s|] == s;
  }

  /** Two elements tied with `y` are tied with each other. */
  lemma TiedTogether<T(!new)>(le: (T, T) -> bool, a: T, b: T, y: T)
    requires TotalPreorder(le)
    ensures Tied(le, a, y) && Tied(le, b, y) ==> le(a, b)
  {
    if Tied(le, a, y) && Tied(le, b, y) {
      assert le(a, y) && le(y, b);
    }
  }

  lemma {:induction false} InsertTies<T(!new)>(x: T, s: seq<T>, le: (T, T) -> bool, y: T)
    requires TotalPreorder(le) && Sorted(s, le)
    ensures TiesOf(Insert(x, s, le), le, y) == TiesOf(s, le, y) + (if Tied(le, x, y) then [x] else [])
  {
    if s == [] || le(s[|s| - 1], x) {
      TiesSnoc(s, x, le, y);
    } else {
      SortedInit(s, le);
      InsertTies(x, s[..|s| - 1], le, y);
      TiedTogether(le, s[|s| - 1], x, y);
      assert s == s[..|s| - 1] + [s[|s| - 1]];
      InsertBefore(x, s[..|s| - 1], s[|s| - 1], le, y);
    }
  }

  /** Inserting before a last element that is greater: the ties of the
      result are those of the insertion into the rest, then that element if
      tied. */
  lemma InsertBefore<T>(x: T, pre: seq<T>, last: T, le: (T, T) -> bool, y: T)
    requires !le(last, x) && !(Tied(le, x, y) && Tied(le, last, y))
    requires TiesOf(Insert(x, pre, le), le, y) == TiesOf(pre, le, y) + (if Tied(le, x, y) then [x] else [])
    ensures TiesOf(Insert(x, pre + [last], le), le, y) == TiesOf(pre + [last], le, y) + (if Tied(le, x, y) then [x] else [])
  {
    InsertSnoc(x, pre, last, le);
    TiesSnoc(Insert(x, pre, le), last, le, y);
    TiesSnoc(pre, last, le, y);
    SwapEnds(TiesOf(pre, le, y), if Tied(le, x, y) then [x] else [], if Tied(le, last, y) then [last] else []);
  }

  /** An element that sorts after `x` stays at the end when `x` is inserted. */
  lemma InsertSnoc<T>(x: T, pre: seq<T>, last: T, le: (T, T) -> bool)
    requires !le(last, x)
    ensures Insert(x, pre + [last], le) == Insert(x, pre, le) + [last]
  {
    var s := pre + [last];
    assert s[..|s| - 1] == pre && s[|s| - 1] == last;
  }

  lemma SwapEnds<T>(a: seq<T>, u: seq<T>, v: seq<T>)
    requires u == [] || v == []
    ensures a + u + v == a + v + u
  {
    if u == [] {
      assert a + u == a && a + v + u == a + v;
    } else {
      assert a + v == a && a + u + v == a + u;
    }
  }

  /** Stability: the elements that compare equal keep their input order. */
  lemma {:induction false} SortByStable<T(!new)>(s: seq<T>, le: (T, T) -> bool, y: T)
    requires TotalPreorder(le)
    ensures TiesOf(SortBy(s, le), le, y) == TiesOf(s, le, y)
  {
    if s != [] {
      var pre := s[..|s| - 1];
      SortByStable(pre, le, y);
      SortBySorted(pre, le);
      InsertTies(s[|s| - 1], SortBy(pre, le), le, y);
    }
  }

  /** `[f(x) for x in s]`. */
  function Map<T, U>(s: seq<T>, f: T -> U): (r: seq<U>)
    ensures |r| == |s| && forall i :: 0 <= i < |s| ==> r[i] == f(s[i])
  {
    seq(|s|, i requires 0 <= i < |s| => f(s[i]))
  }

  /** Inserting an image is the image of inserting, when the order on images
      agrees with the order on the originals. */
  lemma {:induction false} InsertMap<T, U>(x: T, s: seq<T>, f: T -> U, le: (T, T) -> bool, leU: (U, U) -> bool)
    requires forall a, b :: le(a, b) == leU(f(a), f(b))
    ensures Insert(f(x), Map(s, f), leU) == Map(Insert(x, s, le), f)
  {
    var fs := Map(s, f);
    if s == [] {
    } else if le(s[|s| - 1], x) {
      assert fs[|fs| - 1] == f(s[|s| - 1]);
      assert Map(s + [x], f) == fs + [f(x)];
    } else {
      var init := s[..|s| - 1];
      assert fs[..|fs| - 1] == Map(init, f);
      InsertMap(x, init, f, le, leU);
      assert Map(Insert(x, init, le) + [s[|s| - 1]], f) == Map(Insert(x, init, le), f) + [f(s[|s| - 1])];
    }
  }

  /** Sorting the images is the image of sorting, under the same condition:
      a list sorted through a precomputed key is the list sorted by that key. */
  lemma {:induction false} SortByMap<T, U>(s: seq<T>, f: T -> U, le: (T, T) -> bool, leU: (U, U) -> bool)
    requires forall a, b :: le(a, b) == leU(f(a), f(b))
    ensures SortBy(Map(s, f), leU) == Map(SortBy(s, le), f)
  {
    if s != [] {
      var init := s[..|s| - 1];
      var fs := Map(s, f);
      assert fs[..|fs| - 1] == Map(init, f);
      SortByMap(init, f, le, leU);
      InsertMap(s[|s| - 1], SortBy(init, le), f, le, leU);
    }
  }

  /** Descending order of a real key, the comparison of `sorted(..., reverse=True)`. */
  function DescendingBy<T>(key: T -> real): (le: (T, T) -> bool) {
    (a: T, b: T) => key(a) >= key(b)
  }

  /** Ascending order of a real key. */
  function AscendingBy<T>(key: T -> real): (le: (T, T) -> bool) {
    (a: T, b: T) => key(a) <= key(b)
  }

  lemma DescendingIsPreorder<T(!new)>(key: T -> real)
    ensures TotalPreorder(DescendingBy(key))
  {
  }

  lemma AscendingIsPreorder<T(!new)>(key: T -> real)
    ensures TotalPreorder(AscendingBy(key))
  {
  }

  /** Python's `<=` on strings: code-point lexicographic order. */
  predicate StrLe(a: string, b: string) {
    a == [] || (b != [] && (a[0] < b[0] || (a[0] == b[0] && StrLe(a[1..], b[1..]))))
  }

  lemma {:induction false} StrLeTotal(a: string, b: string)
    ensures StrLe(a, b) || StrLe(b, a)
  {
    if a != [] && b != [] && a[0] == b[0] {
      StrLeTotal(a[1..], b[1..]);
    }
  }

  lemma {:induction false} StrLeTransitive(a: string, b: string, c: string)
    requires StrLe(a, b) && StrLe(b, c)
    ensures StrLe(a, c)
  {
    if a != [] && a[0] == b[0] && b[0] == c[0] {
      StrLeTransitive(a[1..], b[1..], c[1..]);
    }
  }

  lemma {:induction false} StrLeAntisymmetric(a: string, b: string)
    requires StrLe(a, b) && StrLe(b, a)
    ensures a == b
  {
    if a != [] {
      StrLeAntisymmetric(a[1..], b[1..]);
      assert a == [a[0]] + a[1..] && b == [b[0]] + b[1..];
    }
  }

  lemma StrLeIsPreorder()
    ensures TotalPreorder(StrLe)
  {
    forall a, b ensures StrLe(a, b) || StrLe(b, a) {
      StrLeTotal(a, b);
    }
    forall a, b, c | StrLe(a, b) && StrLe(b, c) ensures StrLe(a, c) {
      StrLeTransitive(a, b, c);
    }
  }
}
