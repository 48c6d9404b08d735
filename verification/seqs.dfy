/** Generic sequence helpers shared by the store and the screens: the
    `Array.prototype.filter`, `find` and `some` idioms of the application,
    stated once with their properties. */
module Seqs {

  datatype Option<T> = None | Some(value: T)

  /** The elements of `s` that satisfy `f`, in their original order
      (`s.filter(f)`). */
  function Filter<T>(f: T -> bool, s: seq<T>): (r: seq<T>)
    ensures |r| <= |s|
  {
    if s == [] then []
    else if f(s[0]) then [s[0]] + Filter(f, s[1..])
    else Filter(f, s[1..])
  }

  /** An element is kept exactly when it is in `s` and satisfies `f`. */
  lemma {:induction false} FilterMembers<T>(f: T -> bool, s: seq<T>)
    ensures forall x :: x in Filter(f, s) ==> x in s && f(x)
    ensures forall x :: x in s && f(x) ==> x in Filter(f, s)
  {
    if s != [] {
      FilterMembers(f, s[1..]);
      assert s == [s[0]] + s[1..];
    }
  }

  /** Every element that satisfies `f` keeps all its copies; the others
      have none left. */
  lemma {:induction false} FilterCounts<T>(f: T -> bool, s: seq<T>)
    ensures forall x :: f(x) ==> multiset(Filter(f, s))[x] == multiset(s)[x]
    ensures forall x :: !f(x) ==> multiset(Filter(f, s))[x] == 0
  {
    if s != [] {
      FilterCounts(f, s[1..]);
      assert s == [s[0]] + s[1..];
      assert multiset(s) == multiset([s[0]]) + multiset(s[1..]);
    }
  }

  /** `r` can be obtained from `s` by deleting elements: order is kept. */
  predicate IsSubsequence<T(==)>(r: seq<T>, s: seq<T>)
  {
    if r == [] then true
    else if s == [] then false
    else if r[0] == s[0] then IsSubsequence(r[1..], s[1..])
    else IsSubsequence(r, s[1..])
  }

  /** Filtering distributes over concatenation; together with the one-element
      case this determines the result, including its order. */
  lemma {:induction false} FilterAppend<T>(f: T -> bool, a: seq<T>, b: seq<T>)
    ensures Filter(f, a + b) == Filter(f, a) + Filter(f, b)
  {
    if a == [] {
      assert a + b == b;
    } else {
      assert (a + b)[0] == a[0];
      assert (a + b)[1..] == a[1..] + b;
      FilterAppend(f, a[1..], b);
      if f(a[0]) {
        calc {
          Filter(f, a + b);
          [a[0]] + Filter(f, a[1..] + b);
          [a[0]] + (Filter(f, a[1..]) + Filter(f, b));
          ([a[0]] + Filter(f, a[1..])) + Filter(f, b);
        }
      }
    }
  }

  lemma {:induction false} FilterIsSubsequence<T>(f: T -> bool, s: seq<T>)
    ensures IsSubsequence(Filter(f, s), s)
  {
    if s != [] {
      FilterIsSubsequence(f, s[1..]);
      if f(s[0]) {
        assert Filter(f, s)[0] == s[0];
        assert Filter(f, s)[1..] == Filter(f, s[1..]);
      } else {
        assert Filter(f, s) == Filter(f, s[1..]);
        SubsequenceOfTail(Filter(f, s), s);
      }
    }
  }

  lemma {:induction false} SubsequenceOfTail<T>(r: seq<T>, s: seq<T>)
    requires s != [] && IsSubsequence(r, s[1..])
    ensures IsSubsequence(r, s)
  {
    if r != [] && r[0] == s[0] {
      SubsequenceDropHead(r, s[1..]);
    }
  }

  lemma {:induction false} SubsequenceDropHead<T>(r: seq<T>, s: seq<T>)
    requires r != [] && IsSubsequence(r, s)
    ensures IsSubsequence(r[1..], s)
  {
    if s != [] {
      if r[0] == s[0] {
        if r[1..] != [] {
          SubsequenceDropHead(r[1..], s[1..]);
        }
        SubsequenceOfTail(r[1..], s);
      } else {
        SubsequenceDropHead(r, s[1..]);
        SubsequenceOfTail(r[1..], s);
      }
    }
  }

  /** Filtering with a predicate every element meets changes nothing. */
  lemma {:induction false} FilterKeepsAll<T>(f: T -> bool, s: seq<T>)
    requires forall i :: 0 <= i < |s| ==> f(s[i])
    ensures Filter(f, s) == s
  {
    if s != [] {
      FilterKeepsAll(f, s[1..]);
    }
  }

  /** Filtering twice with the same predicate is filtering once. */
  lemma {:induction false} FilterIdempotent<T>(f: T -> bool, s: seq<T>)
    ensures Filter(f, Filter(f, s)) == Filter(f, s)
  {
    var r := Filter(f, s);
    FilterMembers(f, s);
    forall i | 0 <= i < |r| ensures f(r[i]) {
      assert r[i] in r;
    }
    FilterKeepsAll(f, r);
  }

  /** No two elements of `s` share a key. */
  predicate DistinctKeys<T, K(==)>(key: T -> K, s: seq<T>)
  {
    forall i, j :: 0 <= i < j < |s| ==> key(s[i]) != key(s[j])
  }

  /** Dropping elements never creates a duplicate key. */
  lemma {:induction false} FilterKeepsDistinct<T, K>(f: T -> bool, key: T -> K, s: seq<T>)
    requires DistinctKeys(key, s)
    ensures DistinctKeys(key, Filter(f, s))
  {
    if s != [] {
      FilterKeepsDistinct(f, key, s[1..]);
      FilterMembers(f, s[1..]);
      var t := Filter(f, s[1..]);
      forall x | x in t ensures key(x) != key(s[0]) {
        var j :| 0 <= j < |s[1..]| && s[1..][j] == x;
        assert s[j + 1] == x;
      }
      if f(s[0]) {
        var r := [s[0]] + t;
        forall i, j | 0 <= i < j < |r| ensures key(r[i]) != key(r[j]) {
          if i == 0 {
            assert r[j] == t[j - 1] && t[j - 1] in t;
          } else {
            assert r[i] == t[i - 1] && r[j] == t[j - 1];
          }
        }
      }
    }
  }

  /** The first element of `s` that satisfies `f` (`s.find(f)`), if any. */
  function Find<T(==)>(f: T -> bool, s: seq<T>): (r: Option<T>)
    ensures r.None? <==> forall i :: 0 <= i < |s| ==> !f(s[i])
    ensures r.Some? ==> exists k :: 0 <= k < |s| && s[k] == r.value && f(s[k]) &&
                                  forall i :: 0 <= i < k ==> !f(s[i])
  {
    if s == [] then None
    else if f(s[0]) then Some(s[0])
    else
      var r := Find(f, s[1..]);
      assert forall k :: 0 <= k < |s[1..]| ==> s[1..][k] == s[k + 1];
      assert r.Some? ==> exists k :: 1 <= k < |s| && s[k] == r.value && f(s[k]) &&
                                   forall i :: 1 <= i < k ==> !f(s[i]);
      r
  }

  /** Dropping the one element that fails `f` from between two runs that
      pass it. */
  lemma FilterDropsOne<T>(f: T -> bool, a: seq<T>, x: T, b: seq<T>)
    requires forall i :: 0 <= i < |a| ==> f(a[i])
    requires forall i :: 0 <= i < |b| ==> f(b[i])
    requires !f(x)
    ensures Filter(f, a + [x] + b) == a + b
  {
    FilterAppend(f, a + [x], b);
    FilterAppend(f, a, [x]);
    assert [x][1..] == [];
    assert Filter(f, [x]) == [];
    FilterKeepsAll(f, a);
    FilterKeepsAll(f, b);
    calc {
      Filter(f, a + [x] + b);
      Filter(f, a + [x]) + Filter(f, b);
      (Filter(f, a) + Filter(f, [x])) + Filter(f, b);
      (a + []) + b;
    }
    assert a + [] == a;
  }
}
