/**
 * Sequence vocabulary for the lists the effect widget keeps: its effects, its Fbos and the effects
 * it has bound to. Python lists are compared element by element and searched with `in`.
 */
module Lists {

  /** No element occurs twice. */
  predicate Distinct<T(==)>(s: seq<T>) {
    forall i, j | 0 <= i < j < |s| :: s[i] != s[j]
  }

  /** Among the first `n` elements of `s`, position `i` holds the last occurrence of its element. */
  predicate LastBefore<T(==)>(s: seq<T>, i: int, n: int) {
    0 <= i < n <= |s| && forall j | i < j < n :: s[j] != s[i]
  }

  /** The element at `i` does not occur among the first `n` elements of `s`. */
  predicate AbsentBefore<T(==)>(s: seq<T>, i: int, n: int) {
    0 <= i < |s| && forall j | 0 <= j < n && j < |s| :: s[j] != s[i]
  }

  /** In a sequence without repetitions every position is the last occurrence of its element. */
  lemma DistinctAllLast<T>(s: seq<T>)
    requires Distinct(s)
    ensures forall i | 0 <= i < |s| :: LastBefore(s, i, |s|)
  {
  }

  /** `[x for x in s if x in keep]` */
  function Within<T(==)>(s: seq<T>, keep: seq<T>): (r: seq<T>)
    ensures forall i | 0 <= i < |r| :: r[i] in s && r[i] in keep
    ensures forall i | 0 <= i < |s| && s[i] in keep :: s[i] in r
    ensures |r| <= |s|
    decreases |s|
  {
    if s == [] then []
    else
      var init := s[..|s| - 1];
      assert s == init + [s[|s| - 1]];
      var w := Within(init, keep);
      if s[|s| - 1] in keep then w + [s[|s| - 1]] else w
  }

  /** The elements of `s`, in order, that are not in `drop` (the effects that get unbound). */
  function Without<T(==)>(s: seq<T>, drop: seq<T>): (r: seq<T>)
    ensures forall i | 0 <= i < |r| :: r[i] in s && r[i] !in drop
    ensures forall i | 0 <= i < |s| && s[i] !in drop :: s[i] in r
    ensures |r| <= |s|
    decreases |s|
  {
    if s == [] then []
    else
      var init := s[..|s| - 1];
      assert s == init + [s[|s| - 1]];
      var w := Without(init, drop);
      if s[|s| - 1] !in drop then w + [s[|s| - 1]] else w
  }

  /** Filtering never introduces a repetition. */
  lemma {:induction false} WithinDistinct<T>(s: seq<T>, keep: seq<T>)
    requires Distinct(s)
    ensures Distinct(Within(s, keep))
    decreases |s|
  {
    if s != [] {
      var init := s[..|s| - 1];
      assert Distinct(init);
      WithinDistinct(init, keep);
    }
  }

  /** Dropping elements never introduces a repetition either. */
  lemma {:induction false} WithoutDistinct<T>(s: seq<T>, drop: seq<T>)
    requires Distinct(s)
    ensures Distinct(Without(s, drop))
    decreases |s|
  {
    if s != [] {
      var init := s[..|s| - 1];
      assert Distinct(init);
      WithoutDistinct(init, drop);
    }
  }

  /** Every element of `s` ends up either kept or dropped: the two filters split it. */
  lemma {:induction false} FiltersSplit<T>(s: seq<T>, other: seq<T>)
    ensures |Within(s, other)| + |Without(s, other)| == |s|
    decreases |s|
  {
    if s != [] {
      FiltersSplit(s[..|s| - 1], other);
    }
  }

  /**
   * `for x in xs: if x not in acc: acc.append(x)` — `acc` grown by the elements of `xs` it does
   * not already hold, in their order, each once.
   */
  function Extend<T(==)>(acc: seq<T>, xs: seq<T>): (r: seq<T>)
    ensures |acc| <= |r| <= |acc| + |xs| && r[..|acc|] == acc
    decreases |xs|
  {
    if xs == [] then acc
    else
      var a := Extend(acc, xs[..|xs| - 1]);
      if xs[|xs| - 1] in a then a else a + [xs[|xs| - 1]]
  }

  /**
   * What Extend appends holds no repetition, and it is exactly what was offered and not already
   * held.
   */
  lemma {:induction false} ExtendAppends<T>(acc: seq<T>, xs: seq<T>)
    ensures Distinct(Extend(acc, xs)[|acc|..])
    ensures forall x :: x in Extend(acc, xs)[|acc|..] <==> x in xs && x !in acc
    decreases |xs|
  {
    if xs == [] {
      assert Extend(acc, xs)[|acc|..] == [];
    } else {
      var init := xs[..|xs| - 1];
      var y := xs[|xs| - 1];
      assert xs == init + [y];
      ExtendAppends(acc, init);
      var a := Extend(acc, init);
      assert a == a[..|acc|] + a[|acc|..];
      if y !in a {
        var e := a + [y];
        assert e[..|acc|] == a[..|acc|];
        assert e[|acc|..] == a[|acc|..] + [y];
      }
    }
  }

  /** Extend never introduces a repetition. */
  lemma {:induction false} ExtendDistinct<T>(acc: seq<T>, xs: seq<T>)
    requires Distinct(acc)
    ensures Distinct(Extend(acc, xs))
    decreases |xs|
  {
    if xs != [] {
      ExtendDistinct(acc, xs[..|xs| - 1]);
    }
  }

}
