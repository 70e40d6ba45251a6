/** Generic building blocks shared by the model: optional values, an
    order-preserving filter (what a `filter(...)` queryset yields when read
    in table order) and a stable sort (what `order_by(...)` yields). */
module Base {

  datatype Option<+T> = None | Some(value: T) {
    function GetOr(default: T): T {
      match this
      case Some(v) => v
      case None => default
    }
  }

  datatype Result<+T, +E> = Ok(value: T) | Err(error: E)

  /** The elements of `s` satisfying `p`, in their original order. */
  function Filter<T>(s: seq<T>, p: T -> bool): (r: seq<T>)
    ensures |r| <= |s|
    ensures forall i :: 0 <= i < |r| ==> r[i] in s && p(r[i])
    ensures forall i :: 0 <= i < |s| && p(s[i]) ==> s[i] in r
  {
    if s == [] then []
    else if p(s[0]) then [s[0]] + Filter(s[1..], p)
    else Filter(s[1..], p)
  }

  /** The members of a filtered sequence are exactly the members of `s`
      that satisfy `p`. */
  lemma FilterMembers<T>(s: seq<T>, p: T -> bool)
    ensures forall x :: x in Filter(s, p) <==> x in s && p(x)
  {
    forall x | x in s && p(x) ensures x in Filter(s, p) {
      var i :| 0 <= i < |s| && s[i] == x;
    }
  }

  lemma {:induction false} FilterAppend<T>(s: seq<T>, x: T, p: T -> bool)
    ensures Filter(s + [x], p) == Filter(s, p) + (if p(x) then [x] else [])
  {
    if s == [] {
      assert s + [x] == [x];
    } else {
      assert (s + [x])[1..] == s[1..] + [x];
      FilterAppend(s[1..], x, p);
    }
  }

  lemma {:induction false} FilterConcat<T>(a: seq<T>, b: seq<T>, p: T -> bool)
    ensures Filter(a + b, p) == Filter(a, p) + Filter(b, p)
  {
    if a == [] {
      assert a + b == b;
    } else {
      assert (a + b)[1..] == a[1..] + b;
      FilterConcat(a[1..], b, p);
    }
  }

  /** Filtering twice, when the second filter implies the first on `s`, is
      the same as filtering once with the second. */
  lemma {:induction false} FilterAbsorb<T>(s: seq<T>, p: T -> bool, q: T -> bool)
    requires forall x :: x in s && q(x) ==> p(x)
    ensures Filter(Filter(s, p), q) == Filter(s, q)
  {
    if s != [] {
      FilterAbsorb(s[1..], p, q);
    }
  }

  /** Replacing an element the filter rejects by another element it rejects
      leaves the filtered sequence as it was. */
  lemma {:induction false} FilterUpdateRejected<T>(s: seq<T>, i: nat, x: T, p: T -> bool)
    requires i < |s| && !p(s[i]) && !p(x)
    ensures Filter(s[i := x], p) == Filter(s, p)
  {
    if i > 0 {
      assert s[i := x][1..] == s[1..][i - 1 := x];
      FilterUpdateRejected(s[1..], i - 1, x, p);
    }
  }

  /** Removing an element the filter rejects leaves the filtered sequence as it was. */
  lemma {:induction false} FilterRemoveRejected<T>(s: seq<T>, i: nat, p: T -> bool)
    requires i < |s| && !p(s[i])
    ensures Filter(s[..i] + s[i + 1..], p) == Filter(s, p)
  {
    if i > 0 {
      assert (s[..i] + s[i + 1..])[1..] == s[1..][..i - 1] + s[1..][i..];
      FilterRemoveRejected(s[1..], i - 1, p);
    } else {
      assert s[..i] + s[i + 1..] == s[1..];
    }
  }

  /** No two elements of `s` share a key. */
  ghost predicate Distinct<T, K>(s: seq<T>, key: T -> K) {
    forall i, j :: 0 <= i < j < |s| ==> key(s[i]) != key(s[j])
  }

  lemma {:induction false} FilterDistinct<T, K>(s: seq<T>, key: T -> K, p: T -> bool)
    requires Distinct(s, key)
    ensures Distinct(Filter(s, p), key)
  {
    if s != [] {
      FilterDistinct(s[1..], key, p);
      if p(s[0]) {
        var r := Filter(s, p);
        forall j | 0 < j < |r| ensures key(r[0]) != key(r[j]) {
          assert r[j] in s[1..];
        }
      }
    }
  }

  /** `leq` orders every pair of values and is transitive. */
  ghost predicate TotalPreorder<T(!new)>(leq: (T, T) -> bool) {
    && (forall a, b :: leq(a, b) || leq(b, a))
    && (forall a, b, c :: leq(a, b) && leq(b, c) ==> leq(a, c))
  }

  ghost predicate SortedBy<T>(s: seq<T>, leq: (T, T) -> bool) {
    forall i, j :: 0 <= i < j < |s| ==> leq(s[i], s[j])
  }

  /** Inserts `x` before the first element it precedes, so that an element
      inserted later lands after the equal ones already there. */
  function Insert<T>(x: T, s: seq<T>, leq: (T, T) -> bool): (r: seq<T>)
    ensures multiset(r) == multiset(s) + multiset{x}
  {
    if s == [] then [x]
    else if leq(x, s[0]) then [x] + s
    else
      assert s == [s[0]] + s[1..];
      [s[0]] + Insert(x, s[1..], leq)
  }

  /** Insertion sort: a stable sort of `s` by `leq`. */
  function SortBy<T>(s: seq<T>, leq: (T, T) -> bool): (r: seq<T>)
    ensures multiset(r) == multiset(s)
  {
    if s == [] then []
    else
      assert s == [s[0]] + s[1..];
      Insert(s[0], SortBy(s[1..], leq), leq)
  }

  lemma {:induction false} InsertSorted<T(!new)>(x: T, s: seq<T>, leq: (T, T) -> bool)
    requires TotalPreorder(leq) && SortedBy(s, leq)
    ensures SortedBy(Insert(x, s, leq), leq)
  {
    if s != [] && !leq(x, s[0]) {
      InsertSorted(x, s[1..], leq);
      var r := Insert(x, s, leq);
      forall j | 0 < j < |r| ensures leq(r[0], r[j]) {
        assert r[j] in multiset(r[1..]);
        assert r[j] in multiset(s[1..]) + multiset{x};
        if r[j] == x {
          assert leq(x, s[0]) || leq(s[0], x);
        } else {
          assert r[j] in s[1..];
          var k :| 0 <= k < |s[1..]| && s[1..][k] == r[j];
          assert s[k + 1] == r[j];
        }
      }
    }
  }

  lemma {:induction false} SortBySorted<T(!new)>(s: seq<T>, leq: (T, T) -> bool)
    requires TotalPreorder(leq)
    ensures SortedBy(SortBy(s, leq), leq)
  {
    if s != [] {
      SortBySorted(s[1..], leq);
      InsertSorted(s[0], SortBy(s[1..], leq), leq);
    }
  }

  /** A prefix holds no element more often than the whole sequence. */
  lemma PrefixMultiset<T>(s: seq<T>, m: nat)
    requires m <= |s|
    ensures multiset(s[..m]) <= multiset(s)
  {
    assert s == s[..m] + s[m..];
  }

  /** Sorting keeps exactly the elements it is given. */
  lemma SortByMembers<T>(s: seq<T>, leq: (T, T) -> bool)
    ensures |SortBy(s, leq)| == |s|
    ensures forall x :: x in SortBy(s, leq) <==> x in s
  {
    var r := SortBy(s, leq);
    assert |r| == |multiset(r)| == |multiset(s)| == |s|;
    forall x ensures x in r <==> x in s {
      assert x in r <==> x in multiset(r);
      assert x in s <==> x in multiset(s);
    }
  }
}
