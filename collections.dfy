/** Sequence helpers shared by the dashboard's components: the array methods
    `find`, `filter`, `includes` and a `reduce` that sums, stated over `seq`. */
module Collections {

  datatype Option<T> = None | Some(value: T)

  /** `Array.prototype.find`: the first element satisfying `p`, if any. */
  function Find<T>(s: seq<T>, p: T -> bool): Option<T>
    decreases |s|
  {
    if s == [] then None
    else if p(s[0]) then Some(s[0])
    else Find(s[1..], p)
  }

  /** `find` yields nothing exactly when no element satisfies `p`, and
      otherwise the first element that does. */
  lemma {:induction false} FindSpec<T>(s: seq<T>, p: T -> bool)
    ensures Find(s, p).None? <==> forall k :: 0 <= k < |s| ==> !p(s[k])
    ensures Find(s, p).Some? ==> exists k :: 0 <= k < |s| && s[k] == Find(s, p).value && p(s[k]) &&
                                   forall m :: 0 <= m < k ==> !p(s[m])
    decreases |s|
  {
    if s != [] && !p(s[0]) {
      var r := Find(s[1..], p);
      FindSpec(s[1..], p);
      assert forall k :: 0 <= k < |s| - 1 ==> s[1..][k] == s[k + 1];
      if r.Some? {
        var k :| 0 <= k < |s| - 1 && s[1..][k] == r.value && p(s[1..][k]) &&
                 forall m :: 0 <= m < k ==> !p(s[1..][m]);
        assert forall m :: 1 <= m < k + 1 ==> s[m] == s[1..][m - 1];
        assert s[k + 1] == r.value && p(s[k + 1]);
      }
    }
  }

  /** `Array.prototype.filter`: the elements satisfying `keep`, in order. */
  function Filter<T>(s: seq<T>, keep: T -> bool): (r: seq<T>)
    ensures |r| <= |s|
    decreases |s|
  {
    if s == [] then []
    else (if keep(s[0]) then [s[0]] else []) + Filter(s[1..], keep)
  }

  /** `filter` keeps exactly the elements satisfying `keep`. */
  lemma {:induction false} FilterSpec<T>(s: seq<T>, keep: T -> bool)
    ensures forall k :: 0 <= k < |Filter(s, keep)| ==> Filter(s, keep)[k] in s && keep(Filter(s, keep)[k])
    ensures forall k :: 0 <= k < |s| && keep(s[k]) ==> s[k] in Filter(s, keep)
    decreases |s|
  {
    if s != [] {
      FilterSpec(s[1..], keep);
      var r, rest := Filter(s, keep), Filter(s[1..], keep);
      var head := if keep(s[0]) then [s[0]] else [];
      assert r == head + rest;
      forall k | 0 <= k < |r|
        ensures r[k] in s && keep(r[k])
      {
        if k >= |head| {
          assert r[k] == rest[k - |head|];
          assert rest[k - |head|] in s[1..];
        }
      }
      forall k | 0 <= k < |s| && keep(s[k])
        ensures s[k] in r
      {
        if k > 0 {
          assert s[k] == s[1..][k - 1];
        }
      }
    }
  }

  /** Filtering distributes over concatenation, so the kept elements keep
      their relative order. */
  lemma {:induction false} FilterConcat<T>(a: seq<T>, b: seq<T>, keep: T -> bool)
    ensures Filter(a + b, keep) == Filter(a, keep) + Filter(b, keep)
    decreases |a|
  {
    if a == [] {
      assert a + b == b;
    } else {
      var head := if keep(a[0]) then [a[0]] else [];
      assert (a + b)[0] == a[0] && (a + b)[1..] == a[1..] + b;
      assert Filter(a + b, keep) == head + Filter(a[1..] + b, keep);
      FilterConcat(a[1..], b, keep);
      assert Filter(a, keep) == head + Filter(a[1..], keep);
      assert head + (Filter(a[1..], keep) + Filter(b, keep)) == (head + Filter(a[1..], keep)) + Filter(b, keep);
    }
  }

  /** Filtering a list all of whose elements are kept returns it unchanged. */
  lemma {:induction false} FilterKeepsAll<T>(s: seq<T>, keep: T -> bool)
    requires forall k :: 0 <= k < |s| ==> keep(s[k])
    ensures Filter(s, keep) == s
    decreases |s|
  {
    if s != [] {
      FilterKeepsAll(s[1..], keep);
    }
  }

  /** `Array.prototype.includes` on a list without repeated elements. */
  ghost predicate NoDup<T>(s: seq<T>) {
    forall i, j :: 0 <= i < j < |s| ==> s[i] != s[j]
  }

  lemma NoDupAppend<T>(s: seq<T>, x: T)
    requires NoDup(s) && x !in s
    ensures NoDup(s + [x])
  {
    var r := s + [x];
    forall i, j | 0 <= i < j < |r|
      ensures r[i] != r[j]
    {
      if j == |s| {
        assert r[i] == s[i];
      } else {
        assert r[i] == s[i] && r[j] == s[j];
      }
    }
  }

  /** `reduce((sum, x) => sum + f(x), 0)`, accumulated from the front. */
  function SumOf<T>(s: seq<T>, f: T -> real): real
    decreases |s|
  {
    if s == [] then 0.0 else SumOf(s[..|s| - 1], f) + f(s[|s| - 1])
  }

  lemma {:induction false} SumConcat<T>(a: seq<T>, b: seq<T>, f: T -> real)
    ensures SumOf(a + b, f) == SumOf(a, f) + SumOf(b, f)
    decreases |b|
  {
    if b == [] {
      assert a + b == a;
    } else {
      assert (a + b)[..|a + b| - 1] == a + b[..|b| - 1];
      SumConcat(a, b[..|b| - 1], f);
    }
  }

  lemma {:induction false} SumNonNegative<T>(s: seq<T>, f: T -> real)
    requires forall k :: 0 <= k < |s| ==> f(s[k]) >= 0.0
    ensures SumOf(s, f) >= 0.0
    decreases |s|
  {
    if s != [] {
      SumNonNegative(s[..|s| - 1], f);
    }
  }

  /** A sum of non-negative terms is zero only when every term is zero. */
  lemma {:induction false} SumZeroMeansAllZero<T>(s: seq<T>, f: T -> real)
    requires forall k :: 0 <= k < |s| ==> f(s[k]) >= 0.0
    requires SumOf(s, f) == 0.0
    ensures forall k :: 0 <= k < |s| ==> f(s[k]) == 0.0
    decreases |s|
  {
    if s != [] {
      var init := s[..|s| - 1];
      SumNonNegative(init, f);
      SumZeroMeansAllZero(init, f);
      assert forall k :: 0 <= k < |init| ==> s[k] == init[k];
    }
  }

  /** Summing is monotone in the summed function. */
  lemma {:induction false} SumPointwise<T>(s: seq<T>, f: T -> real, g: T -> real)
    requires forall k :: 0 <= k < |s| ==> f(s[k]) <= g(s[k])
    ensures SumOf(s, f) <= SumOf(s, g)
    decreases |s|
  {
    if s != [] {
      SumPointwise(s[..|s| - 1], f, g);
    }
  }
}
