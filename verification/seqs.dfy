/** Sequence helpers shared by the server store and the client board.
    `Filter` is the order-preserving selection that both JavaScript's
    `Array.prototype.filter` and a MongoDB `find` over a collection perform. */
module Seqs {

  /** The elements of `s` that satisfy `f`, in their original order. */
  function Filter<T(!new)>(s: seq<T>, f: T -> bool): (r: seq<T>)
    ensures |r| <= |s|
    ensures forall i :: 0 <= i < |r| ==> f(r[i])
    ensures forall x :: x in r <==> x in s && f(x)
  {
    if s == [] then []
    else (if f(s[0]) then [s[0]] else []) + Filter(s[1..], f)
  }

  /** `sub` can be obtained from `s` by deleting elements, without reordering.
      Matching greedily against the first element of `s` is complete. */
  ghost predicate IsSubsequence<T(!new)>(sub: seq<T>, s: seq<T>)
    decreases |s|
  {
    sub == [] ||
    (s != [] &&
     if sub[0] == s[0] then IsSubsequence(sub[1..], s[1..]) else IsSubsequence(sub, s[1..]))
  }

  /** No element occurs twice. */
  ghost predicate NoDup<T(!new)>(s: seq<T>)
  {
    forall i, j :: 0 <= i < j < |s| ==> s[i] != s[j]
  }

  /** The first `n` elements of `s`, or all of them when there are fewer. */
  function Take<T(!new)>(s: seq<T>, n: nat): (r: seq<T>)
    ensures |r| <= n && |r| <= |s|
    ensures r == s[..|r|]
    ensures |s| <= n ==> r == s
    ensures n <= |s| ==> |r| == n
  {
    if |s| <= n then s else s[..n]
  }

  lemma {:induction false} FilterIsSubsequence<T(!new)>(s: seq<T>, f: T -> bool)
    ensures IsSubsequence(Filter(s, f), s)
  {
    if s != [] {
      FilterIsSubsequence(s[1..], f);
      var r := Filter(s, f);
      if f(s[0]) {
        assert r == [s[0]] + Filter(s[1..], f);
        assert r[0] == s[0] && r[1..] == Filter(s[1..], f);
        assert IsSubsequence(r[1..], s[1..]);
      } else if r != [] {
        // r[0] satisfies f, so it cannot be the rejected s[0]
        assert f(r[0]) && r[0] != s[0];
        assert r == Filter(s[1..], f);
      }
    }
  }

  lemma {:induction false} FilterConcat<T(!new)>(a: seq<T>, b: seq<T>, f: T -> bool)
    ensures Filter(a + b, f) == Filter(a, f) + Filter(b, f)
  {
    if a == [] {
      assert a + b == b;
    } else {
      assert (a + b)[1..] == a[1..] + b;
      FilterConcat(a[1..], b, f);
    }
  }

  /** Filtering keeps the whole sequence exactly when every element passes. */
  lemma {:induction false} FilterKeepsAll<T(!new)>(s: seq<T>, f: T -> bool)
    ensures Filter(s, f) == s <==> forall i :: 0 <= i < |s| ==> f(s[i])
  {
    if s != [] {
      FilterKeepsAll(s[1..], f);
      if forall i :: 0 <= i < |s| ==> f(s[i]) {
        assert forall i :: 0 <= i < |s[1..]| ==> f(s[1..][i]) by {
          forall i | 0 <= i < |s[1..]| ensures f(s[1..][i]) { assert s[1..][i] == s[i + 1]; }
        }
      } else {
        var k :| 0 <= k < |s| && !f(s[k]);
        assert s[k] in s;
        assert s[k] !in Filter(s, f);
      }
    }
  }

  /** Filtering drops everything when no element passes. */
  lemma {:induction false} FilterKeepsNone<T(!new)>(s: seq<T>, f: T -> bool)
    requires forall i :: 0 <= i < |s| ==> !f(s[i])
    ensures Filter(s, f) == []
  {
    if s != [] {
      FilterKeepsNone(s[1..], f);
    }
  }

  lemma {:induction false} FilterIdempotent<T(!new)>(s: seq<T>, f: T -> bool)
    ensures Filter(Filter(s, f), f) == Filter(s, f)
  {
    FilterKeepsAll(Filter(s, f), f);
  }

  /** Filtering by `f` then by `g` is filtering once by their conjunction `h`. */
  lemma {:induction false} FilterAnd<T(!new)>(s: seq<T>, f: T -> bool, g: T -> bool, h: T -> bool)
    requires forall x :: h(x) == (f(x) && g(x))
    ensures Filter(Filter(s, f), g) == Filter(s, h)
  {
    if s != [] {
      FilterAnd(s[1..], f, g, h);
      var head := if f(s[0]) then [s[0]] else [];
      FilterConcat(head, Filter(s[1..], f), g);
      if f(s[0]) {
        assert head[1..] == [];
      }
    }
  }

  /** Two predicates that agree everywhere filter alike. */
  lemma {:induction false} FilterExtensional<T(!new)>(s: seq<T>, f: T -> bool, g: T -> bool)
    requires forall x :: f(x) == g(x)
    ensures Filter(s, f) == Filter(s, g)
  {
    FilterKeepsAll(s, x => true);
    FilterAnd(s, x => true, f, g);
    FilterAnd(s, x => true, g, g);
  }

  /** How many copies of `x` survive filtering. */
  lemma {:induction false} FilterCount<T(!new)>(s: seq<T>, f: T -> bool, x: T)
    ensures multiset(Filter(s, f))[x] == if f(x) then multiset(s)[x] else 0
  {
    if s != [] {
      FilterCount(s[1..], f, x);
      assert s == [s[0]] + s[1..];
      var head := if f(s[0]) then [s[0]] else [];
      assert multiset(Filter(s, f)) == multiset(head) + multiset(Filter(s[1..], f));
      assert multiset(s) == multiset([s[0]]) + multiset(s[1..]);
    }
  }

  /** A predicate and its negation split a sequence into two parts that
      together hold every element exactly as often as the whole. */
  lemma {:induction false} FilterSplit<T(!new)>(s: seq<T>, f: T -> bool, g: T -> bool)
    requires forall x :: g(x) == !f(x)
    ensures multiset(Filter(s, f)) + multiset(Filter(s, g)) == multiset(s)
  {
    forall x ensures (multiset(Filter(s, f)) + multiset(Filter(s, g)))[x] == multiset(s)[x] {
      FilterCount(s, f, x);
      FilterCount(s, g, x);
    }
  }

  lemma {:induction false} FilterNoDup<T(!new)>(s: seq<T>, f: T -> bool)
    requires NoDup(s)
    ensures NoDup(Filter(s, f))
  {
    if s != [] {
      assert NoDup(s[1..]) by {
        forall i, j | 0 <= i < j < |s[1..]| ensures s[1..][i] != s[1..][j] {
          assert s[1..][i] == s[i + 1] && s[1..][j] == s[j + 1];
        }
      }
      FilterNoDup(s[1..], f);
      var rest := Filter(s[1..], f);
      assert s[0] !in s[1..];
      if f(s[0]) {
        var r := [s[0]] + rest;
        forall i, j | 0 <= i < j < |r| ensures r[i] != r[j] {
          if i == 0 {
            assert r[j] == rest[j - 1] && r[j] in rest;
          } else {
            assert r[i] == rest[i - 1] && r[j] == rest[j - 1];
          }
        }
      }
    }
  }

  /** Appending one element to a prefix-limited list. */
  lemma {:induction false} TakeSnoc<T(!new)>(a: seq<T>, x: T, n: nat)
    ensures Take(a + [x], n) == if |a| < n then Take(a, n) + [x] else Take(a, n)
  {
    if |a| >= n {
      assert (a + [x])[..n] == a[..n];
    }
  }

  /** Once `a` alone reaches the limit, what follows it is cut off. */
  lemma {:induction false} TakeConcatFull<T(!new)>(a: seq<T>, b: seq<T>, n: nat)
    requires n <= |a|
    ensures Take(a + b, n) == Take(a, n)
  {
    assert (a + b)[..n] == a[..n];
  }

  /** One more element of `s` read: the filter of the longer prefix, cut at
      `n`, gains that element exactly when it passes and the cut is not full. */
  lemma {:induction false} TakeFilterStep<T(!new)>(s: seq<T>, i: nat, f: T -> bool, n: nat)
    requires i < |s|
    ensures Take(Filter(s[..i + 1], f), n) ==
      if f(s[i]) && |Take(Filter(s[..i], f), n)| < n then Take(Filter(s[..i], f), n) + [s[i]]
      else Take(Filter(s[..i], f), n)
  {
    assert s[..i + 1] == s[..i] + [s[i]];
    FilterConcat(s[..i], [s[i]], f);
    if f(s[i]) {
      TakeSnoc(Filter(s[..i], f), s[i], n);
    } else {
      assert Filter(s[..i + 1], f) == Filter(s[..i], f);
    }
  }

  /** Reading may stop once `s` is exhausted or the cut is full. */
  lemma {:induction false} TakeFilterDone<T(!new)>(s: seq<T>, i: nat, f: T -> bool, n: nat)
    requires i <= |s|
    requires i == |s| || |Take(Filter(s[..i], f), n)| >= n
    ensures Take(Filter(s, f), n) == Take(Filter(s[..i], f), n)
  {
    if i == |s| {
      assert s[..i] == s;
    } else {
      var a, b := Filter(s[..i], f), Filter(s[i..], f);
      assert s == s[..i] + s[i..];
      FilterConcat(s[..i], s[i..], f);
      assert Filter(s, f) == a + b;
      TakeConcatFull(a, b, n);
    }
  }

  /** In a sequence without duplicates each member occurs exactly once. */
  lemma {:induction false} NoDupOnce<T(!new)>(s: seq<T>, x: T)
    requires NoDup(s) && x in s
    ensures multiset(s)[x] == 1
  {
    assert s == [s[0]] + s[1..];
    if s[0] == x {
      assert x !in s[1..];
    } else {
      NoDupOnce(s[1..], x);
    }
  }
}
