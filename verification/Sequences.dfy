/** Small facts about sequences and bags that several chapters share. */
module Sequences {

  datatype Option<+T> = None | Some(value: T)

  function Min(a: nat, b: nat): nat { if a <= b then a else b }

  /** The elements of s in order, each kept only where it occurs first. */
  function FirstOccurrences<T(==)>(s: seq<T>): seq<T>
  {
    if s == [] then []
    else
      var front, x := s[..|s| - 1], s[|s| - 1];
      if x in front then FirstOccurrences(front) else FirstOccurrences(front) + [x]
  }

  lemma FirstOccurrencesSnoc<T>(s: seq<T>, x: T)
    ensures FirstOccurrences(s + [x]) == if x in s then FirstOccurrences(s) else FirstOccurrences(s) + [x]
  {
    assert (s + [x])[..|s|] == s;
  }

  lemma {:induction false} FirstOccurrencesMembers<T>(s: seq<T>, x: T)
    ensures x in FirstOccurrences(s) <==> x in s
  {
    if s != [] {
      FirstOccurrencesMembers(s[..|s| - 1], x);
      assert s == s[..|s| - 1] + [s[|s| - 1]];
    }
  }

  ghost predicate Distinct<T>(s: seq<T>) {
    forall i, j :: 0 <= i < j < |s| ==> s[i] != s[j]
  }

  /** The elements of s that belong to keep, in order. */
  function Filter<T(==)>(s: seq<T>, keep: set<T>): seq<T>
  {
    if s == [] then []
    else Filter(s[..|s| - 1], keep) + (if s[|s| - 1] in keep then [s[|s| - 1]] else [])
  }

  lemma FilterSnoc<T>(s: seq<T>, x: T, keep: set<T>)
    ensures Filter(s + [x], keep) == Filter(s, keep) + (if x in keep then [x] else [])
  {
    assert (s + [x])[..|s|] == s;
  }

  lemma {:induction false} FilterMembers<T>(s: seq<T>, keep: set<T>, x: T)
    ensures x in Filter(s, keep) <==> x in s && x in keep
  {
    if s != [] {
      var n := |s| - 1;
      FilterMembers(s[..n], keep, x);
      assert s == s[..n] + [s[n]];
    }
  }

  lemma {:induction false} FilterPrefix<T>(s: seq<T>, t: seq<T>, keep: set<T>)
    requires s <= t
    ensures Filter(s, keep) <= Filter(t, keep)
  {
    if s != t {
      var n := |t| - 1;
      FilterPrefix(s, t[..n], keep);
    } else {
      assert s == t;
    }
  }

  /** Dropping repetitions and filtering commute. */
  lemma {:induction false} FirstOccurrencesFilter<T>(s: seq<T>, keep: set<T>)
    ensures FirstOccurrences(Filter(s, keep)) == Filter(FirstOccurrences(s), keep)
  {
    if s != [] {
      var front, x := s[..|s| - 1], s[|s| - 1];
      FirstOccurrencesFilter(front, keep);
      FirstOccurrencesSnoc(Filter(front, keep), x);
      FilterMembers(front, keep, x);
      FilterSnoc(FirstOccurrences(front), x, keep);
      assert Filter(s, keep) == if x in keep then Filter(front, keep) + [x] else Filter(front, keep);
    }
  }

  /** How often x occurs in s. */
  function Count<T(==)>(s: seq<T>, x: T): nat
  {
    if s == [] then 0 else Count(s[..|s| - 1], x) + (if s[|s| - 1] == x then 1 else 0)
  }

  lemma CountSnoc<T>(s: seq<T>, y: T, x: T)
    ensures Count(s + [y], x) == Count(s, x) + (if y == x then 1 else 0)
  {
    assert (s + [y])[..|s|] == s;
  }

  lemma {:induction false} CountConcat<T>(s: seq<T>, t: seq<T>, x: T)
    ensures Count(s + t, x) == Count(s, x) + Count(t, x)
    decreases |t|
  {
    if t == [] {
      assert s + t == s;
    } else {
      var n := |t| - 1;
      CountConcat(s, t[..n], x);
      assert (s + t)[..|s| + n] == s + t[..n];
    }
  }

  lemma {:induction false} CountPositive<T>(s: seq<T>, x: T)
    ensures Count(s, x) > 0 <==> x in s
  {
    if s != [] {
      var n := |s| - 1;
      CountPositive(s[..n], x);
      assert s == s[..n] + [s[n]];
    }
  }

  /** In a sequence without repetitions every element is counted once. */
  lemma {:induction false} CountDistinct<T>(s: seq<T>, x: T)
    requires Distinct(s)
    ensures Count(s, x) == if x in s then 1 else 0
  {
    if s != [] {
      var n := |s| - 1;
      CountDistinct(s[..n], x);
      assert s == s[..n] + [s[n]];
    }
  }

  function RemoveAt<T>(s: seq<T>, i: nat): seq<T>
    requires i < |s|
  {
    s[..i] + s[i + 1..]
  }

  // ---- sums over the elements of a sequence ----

  function SumOver<T>(f: T -> nat, s: seq<T>): nat {
    if s == [] then 0 else SumOver(f, s[..|s| - 1]) + f(s[|s| - 1])
  }

  lemma {:induction false} SumConcat<T>(f: T -> nat, p: seq<T>, q: seq<T>)
    ensures SumOver(f, p + q) == SumOver(f, p) + SumOver(f, q)
    decreases |q|
  {
    if q == [] {
      assert p + q == p;
    } else {
      var n := |q| - 1;
      SumConcat(f, p, q[..n]);
      assert (p + q)[..|p| + n] == p + q[..n];
    }
  }

  lemma SumOne<T>(f: T -> nat, x: T)
    ensures SumOver(f, [x]) == f(x)
  {
    assert [x][..0] == [];
  }

  lemma {:induction false} SumRemove<T>(f: T -> nat, p: seq<T>, i: nat)
    requires i < |p|
    ensures SumOver(f, p) == SumOver(f, RemoveAt(p, i)) + f(p[i])
  {
    SumConcat(f, p[..i], p[i + 1..]);
    SumConcat(f, p[..i], [p[i]]);
    SumConcat(f, p[..i] + [p[i]], p[i + 1..]);
    SumOne(f, p[i]);
    assert p[..i] + [p[i]] + p[i + 1..] == p;
  }

  lemma SumTwo<T>(f: T -> nat, x: T, y: T)
    ensures SumOver(f, [x, y]) == f(x) + f(y)
  {
    assert [x, y][..1] == [x];
    SumOne(f, x);
  }

  lemma {:induction false} SumSource<T>(f: T -> nat, p: seq<T>) returns (i: nat)
    requires SumOver(f, p) > 0
    ensures i < |p| && f(p[i]) > 0
  {
    i := |p| - 1;
    if f(p[i]) == 0 { i := SumSource(f, p[..i]); }
  }

  lemma SumAtLeastTwo<T>(f: T -> nat, p: seq<T>, i: nat, j: nat)
    requires i < |p| && j < |p| && i != j
    ensures SumOver(f, p) >= f(p[i]) + f(p[j])
  {
    SumRemove(f, p, i);
    var k := if j < i then j else j - 1;
    SumRemove(f, RemoveAt(p, i), k);
  }

  lemma {:induction false} SumZero<T>(f: T -> nat, s: seq<T>)
    requires forall i :: 0 <= i < |s| ==> f(s[i]) == 0
    ensures SumOver(f, s) == 0
  {
    if s != [] { SumZero(f, s[..|s| - 1]); }
  }

  lemma {:induction false} SumUpdate<T>(f: T -> nat, s: seq<T>, i: nat, x: T)
    requires i < |s|
    ensures SumOver(f, s[i := x]) + f(s[i]) == SumOver(f, s) + f(x)
  {
    var n := |s| - 1;
    if i == n {
      assert s[i := x][..n] == s[..n];
    } else {
      SumUpdate(f, s[..n], i, x);
      assert s[i := x][..n] == s[..n][i := x];
    }
  }

  // ---- sums of numbers ----

  function SumOf(xs: seq<int>): int {
    if xs == [] then 0 else SumOf(xs[..|xs| - 1]) + xs[|xs| - 1]
  }

  lemma SumOfOne(x: int)
    ensures SumOf([x]) == x
  {
    assert [x][..0] == [];
  }

  lemma {:induction false} SumOfConcat(xs: seq<int>, ys: seq<int>)
    ensures SumOf(xs + ys) == SumOf(xs) + SumOf(ys)
    decreases |ys|
  {
    if ys == [] {
      assert xs + ys == xs;
    } else {
      var n := |ys| - 1;
      SumOfConcat(xs, ys[..n]);
      assert (xs + ys)[..|xs| + n] == xs + ys[..n];
    }
  }
}
