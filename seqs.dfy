/** Order-keeping sequence combinators standing for JavaScript's
    `Array.prototype.filter` and `Array.prototype.map`, with the facts the
    rest of the model uses about them. */
module Seqs {

  /** The elements of `s` that satisfy `p`, in their original order
      (`s.filter(p)`). */
  function Filter<T>(s: seq<T>, p: T -> bool): (r: seq<T>)
    ensures |r| <= |s|
    ensures forall i :: 0 <= i < |r| ==> p(r[i])
    ensures multiset(r) <= multiset(s)
  {
    if s == [] then []
    else
      assert s == [s[0]] + s[1..];
      (if p(s[0]) then [s[0]] else []) + Filter(s[1..], p)
  }

  /** `f` applied to every element of `s`, position by position (`s.map(f)`). */
  function Map<T, U>(s: seq<T>, f: T -> U): (r: seq<U>)
    ensures |r| == |s|
    ensures forall i :: 0 <= i < |s| ==> r[i] == f(s[i])
  {
    if s == [] then [] else [f(s[0])] + Map(s[1..], f)
  }

  /** `a` can be obtained from `b` by deleting elements: every element of
      `a` occurs in `b`, and in the same relative order. */
  predicate IsSubseq<T(==)>(a: seq<T>, b: seq<T>)
    decreases |b|
  {
    if a == [] then true
    else if b == [] then false
    else (a[0] == b[0] && IsSubseq(a[1..], b[1..])) || IsSubseq(a, b[1..])
  }

  lemma {:induction false} FilterIsSubseq<T>(s: seq<T>, p: T -> bool)
    ensures IsSubseq(Filter(s, p), s)
  {
    if s != [] {
      FilterIsSubseq(s[1..], p);
      if p(s[0]) {
        assert Filter(s, p) == [s[0]] + Filter(s[1..], p);
        assert Filter(s, p)[1..] == Filter(s[1..], p);
      } else {
        assert Filter(s, p) == Filter(s[1..], p);
      }
    }
  }

  /** Every member of a filtered sequence is a member of the original that
      satisfies the predicate. */
  lemma FilterMembers<T>(s: seq<T>, p: T -> bool)
    ensures forall x :: x in Filter(s, p) ==> x in s && p(x)
  {
    forall x | x in Filter(s, p) ensures x in s && p(x) {
      var i :| 0 <= i < |Filter(s, p)| && Filter(s, p)[i] == x;
      assert x in multiset(Filter(s, p));
    }
  }

  /** Every element of `s` that satisfies `p` survives the filter. */
  lemma {:induction false} FilterKeeps<T>(s: seq<T>, p: T -> bool)
    ensures forall i :: 0 <= i < |s| && p(s[i]) ==> s[i] in Filter(s, p)
  {
    if s != [] {
      FilterKeeps(s[1..], p);
      assert forall i :: 1 <= i < |s| ==> s[i] == s[1..][i - 1];
    }
  }

  /** The empty sequence is a unit of concatenation. */
  lemma EmptyConcat<T>(a: seq<T>)
    ensures [] + a == a && a + [] == a
  {
  }

  /** `Filter` on a sequence with a known first element. */
  lemma FilterCons<T>(x: T, s: seq<T>, p: T -> bool)
    ensures Filter([x] + s, p) == (if p(x) then [x] else []) + Filter(s, p)
  {
    assert ([x] + s)[0] == x && ([x] + s)[1..] == s;
  }

  /** A kept value occurs in the result as often as in the input; a dropped
      value does not occur at all. */
  lemma {:induction false} FilterCount<T>(s: seq<T>, p: T -> bool)
    ensures forall x :: multiset(Filter(s, p))[x] == (if p(x) then multiset(s)[x] else 0)
  {
    if s != [] {
      FilterCount(s[1..], p);
      assert s == [s[0]] + s[1..];
      assert multiset(s) == multiset{s[0]} + multiset(s[1..]);
    }
  }

  lemma {:induction false} FilterConcat<T>(a: seq<T>, b: seq<T>, p: T -> bool)
    ensures Filter(a + b, p) == Filter(a, p) + Filter(b, p)
  {
    if a == [] {
      assert a + b == b;
    } else {
      assert (a + b)[1..] == a[1..] + b;
      FilterConcat(a[1..], b, p);
    }
  }

  lemma FilterSnoc<T>(s: seq<T>, x: T, p: T -> bool)
    ensures Filter(s + [x], p) == Filter(s, p) + (if p(x) then [x] else [])
  {
    FilterConcat(s, [x], p);
    assert Filter([x], p) == (if p(x) then [x] else []) + Filter([x][1..], p);
  }

  lemma {:induction false} FilterAll<T>(s: seq<T>, p: T -> bool)
    requires forall x :: x in s ==> p(x)
    ensures Filter(s, p) == s
  {
    if s != [] {
      FilterAll(s[1..], p);
      assert [s[0]] + s[1..] == s;
    }
  }

  lemma {:induction false} FilterNone<T>(s: seq<T>, p: T -> bool)
    requires forall x :: x in s ==> !p(x)
    ensures Filter(s, p) == []
  {
    if s != [] {
      FilterNone(s[1..], p);
    }
  }

  /** Two predicates that agree on the elements of `s` filter it alike. */
  lemma {:induction false} FilterExt<T>(s: seq<T>, p: T -> bool, q: T -> bool)
    requires forall x :: x in s ==> p(x) == q(x)
    ensures Filter(s, p) == Filter(s, q)
  {
    if s != [] {
      FilterExt(s[1..], p, q);
    }
  }

  /** Filtering twice is filtering once by the conjunction. */
  lemma {:induction false} FilterFilter<T>(s: seq<T>, p: T -> bool, q: T -> bool, pq: T -> bool)
    requires forall x :: x in s ==> pq(x) == (p(x) && q(x))
    ensures Filter(Filter(s, p), q) == Filter(s, pq)
  {
    if s != [] {
      FilterFilter(s[1..], p, q, pq);
      if p(s[0]) {
        assert Filter(s, p) == [s[0]] + Filter(s[1..], p);
        assert Filter(Filter(s, p), q)
            == (if q(s[0]) then [s[0]] else []) + Filter(Filter(s[1..], p), q) by {
          assert Filter(s, p)[0] == s[0];
          assert Filter(s, p)[1..] == Filter(s[1..], p);
        }
      } else {
        assert Filter(s, p) == Filter(s[1..], p);
      }
    }
  }

  lemma FilterIdempotent<T>(s: seq<T>, p: T -> bool)
    ensures Filter(Filter(s, p), p) == Filter(s, p)
  {
    FilterAll(Filter(s, p), p);
  }

  lemma {:induction false} MapConcat<T, U>(a: seq<T>, b: seq<T>, f: T -> U)
    ensures Map(a + b, f) == Map(a, f) + Map(b, f)
  {
    // Map is pinned down pointwise by its contract.
    assert |Map(a + b, f)| == |Map(a, f) + Map(b, f)|;
    forall i | 0 <= i < |a + b|
      ensures Map(a + b, f)[i] == (Map(a, f) + Map(b, f))[i]
    {
      if i < |a| {
        assert (a + b)[i] == a[i];
      } else {
        assert (a + b)[i] == b[i - |a|];
      }
    }
  }
  /** Extending the input by one element extends a filter-then-map by that
      element's image, when it passes the filter. */
  lemma MapFilterSnoc<T, U>(s: seq<T>, i: nat, p: T -> bool, f: T -> U)
    requires 1 <= i <= |s|
    ensures Map(Filter(s[..i], p), f)
         == Map(Filter(s[..i - 1], p), f) + (if p(s[i - 1]) then [f(s[i - 1])] else [])
  {
    assert s[..i] == s[..i - 1] + [s[i - 1]];
    FilterSnoc(s[..i - 1], s[i - 1], p);
    MapConcat(Filter(s[..i - 1], p), if p(s[i - 1]) then [s[i - 1]] else [], f);
  }
  /** Three predicates that pick out exactly one of them for every element
      split `s` into three filters that together hold each element once. */
  lemma {:induction false} FilterSplit3<T>(s: seq<T>, p: T -> bool, q: T -> bool, r: T -> bool)
    requires forall i :: 0 <= i < |s| ==>
      ((if p(s[i]) then 1 else 0) + (if q(s[i]) then 1 else 0) + (if r(s[i]) then 1 else 0) == 1)
    ensures multiset(Filter(s, p)) + multiset(Filter(s, q)) + multiset(Filter(s, r)) == multiset(s)
  {
    if s != [] {
      var x, tail := s[0], s[1..];
      assert forall i :: 1 <= i < |s| ==> tail[i - 1] == s[i];
      FilterSplit3(tail, p, q, r);
      assert s == [x] + tail;
      FilterCons(x, tail, p);
      FilterCons(x, tail, q);
      FilterCons(x, tail, r);
      var hp, hq, hr := (if p(x) then [x] else []), (if q(x) then [x] else []), (if r(x) then [x] else []);
      var mp, mq, mr := multiset(Filter(s, p)), multiset(Filter(s, q)), multiset(Filter(s, r));
      assert mp == multiset(hp) + multiset(Filter(tail, p));
      assert mq == multiset(hq) + multiset(Filter(tail, q));
      assert mr == multiset(hr) + multiset(Filter(tail, r));
      assert multiset(s) == multiset{x} + multiset(tail);
      MultisetRegroup(multiset(hp), multiset(Filter(tail, p)), multiset(hq), multiset(Filter(tail, q)),
                      multiset(hr), multiset(Filter(tail, r)));
      assert multiset(hp) + multiset(hq) + multiset(hr) == multiset{x};
    }
  }

  lemma MultisetRegroup<T>(a: multiset<T>, b: multiset<T>, c: multiset<T>, d: multiset<T>, e: multiset<T>, f: multiset<T>)
    ensures (a + b) + (c + d) + (e + f) == (a + c + e) + (b + d + f)
  {
  }

  /** No element occurs twice. */
  predicate Distinct<T(==)>(s: seq<T>) {
    forall i, j :: 0 <= i < j < |s| ==> s[i] != s[j]
  }

  /** Removing a value that occurs once in a duplicate-free sequence
      shortens it by one. */
  lemma {:induction false} FilterOutDistinct<T>(s: seq<T>, x: T)
    requires Distinct(s) && x in s
    ensures |Filter(s, y => y != x)| == |s| - 1
  {
    assert Distinct(s[1..]) by {
      assert forall i :: 0 <= i < |s[1..]| ==> s[1..][i] == s[i + 1];
    }
    if s[0] == x {
      assert x !in s[1..];
      FilterAll(s[1..], y => y != x);
    } else {
      assert x in s[1..];
      FilterOutDistinct(s[1..], x);
    }
  }

  lemma {:induction false} FilterDistinct<T>(s: seq<T>, p: T -> bool)
    requires Distinct(s)
    ensures Distinct(Filter(s, p))
  {
    if s != [] {
      assert Distinct(s[1..]) by {
        assert forall i :: 0 <= i < |s[1..]| ==> s[1..][i] == s[i + 1];
      }
      FilterDistinct(s[1..], p);
      FilterMembers(s[1..], p);
      assert s[0] !in s[1..];
      var rest := Filter(s[1..], p);
      if p(s[0]) {
        assert Filter(s, p) == [s[0]] + rest;
        assert forall j :: 0 <= j < |rest| ==> rest[j] != s[0] by {
          forall j | 0 <= j < |rest| ensures rest[j] != s[0] {
            assert rest[j] in rest;
          }
        }
      } else {
        assert Filter(s, p) == rest;
      }
    }
  }
}
