/** The array methods `map`, `filter` and `every` that the components use on task lists. */
module Seqs {

  /** `s.map(f)` */
  function Map<T, U>(s: seq<T>, f: T -> U): (r: seq<U>)
    ensures |r| == |s|
    ensures forall i :: 0 <= i < |s| ==> r[i] == f(s[i])
  {
    if s == [] then [] else [f(s[0])] + Map(s[1..], f)
  }

  /** `s.filter(f)`; what it keeps is stated by `FilterMembers` and `FilterConcat`. */
  function Filter<T>(s: seq<T>, f: T -> bool): (r: seq<T>)
    ensures |r| <= |s|
  {
    if s == [] then []
    else if f(s[0]) then [s[0]] + Filter(s[1..], f)
    else Filter(s[1..], f)
  }

  /** Filtering distributes over concatenation; with the one-element case this fixes the
      order of the result: the kept elements, in their original order. */
  lemma {:induction false} FilterConcat<T>(a: seq<T>, b: seq<T>, f: T -> bool)
    ensures Filter(a + b, f) == Filter(a, f) + Filter(b, f)
  {
    if a == [] {
      assert a + b == b;
    } else {
      assert (a + b)[1..] == a[1..] + b;
      FilterConcat(a[1..], b, f);
    }
  }

  /** The filter keeps exactly the elements that pass. */
  lemma {:induction false} FilterMembers<T>(s: seq<T>, f: T -> bool)
    ensures forall x :: x in Filter(s, f) <==> x in s && f(x)
  {
    if s != [] {
      FilterMembers(s[1..], f);
      assert s == [s[0]] + s[1..];
    }
  }

  /** One step of a filter over a suffix. */
  lemma FilterStep<T>(s: seq<T>, k: nat, f: T -> bool)
    requires k < |s|
    ensures Filter(s[k..], f) ==
      if f(s[k]) then [s[k]] + Filter(s[k + 1..], f) else Filter(s[k + 1..], f)
  {
    assert s[k..][1..] == s[k + 1..];
  }

  /** A filter keeps everything exactly when every element passes. */
  lemma {:induction false} FilterAll<T>(s: seq<T>, f: T -> bool)
    requires forall x :: x in s ==> f(x)
    ensures Filter(s, f) == s
  {
    if s != [] {
      FilterAll(s[1..], f);
    }
  }

  /** A filter and its complement split the elements: together they hold each element
      exactly as often as the input does. */
  lemma {:induction false} FilterPartition<T>(s: seq<T>, f: T -> bool, g: T -> bool)
    requires forall x :: g(x) == !f(x)
    ensures multiset(Filter(s, f)) + multiset(Filter(s, g)) == multiset(s)
    ensures |Filter(s, f)| + |Filter(s, g)| == |s|
  {
    if s != [] {
      FilterPartition(s[1..], f, g);
      assert s == [s[0]] + s[1..];
    }
  }

  /** Mapping twice with a self-inverse function gives back the input. */
  lemma {:induction false} MapInvolution<T>(s: seq<T>, f: T -> T)
    requires forall x :: f(f(x)) == x
    ensures Map(Map(s, f), f) == s
  {
    var r := Map(Map(s, f), f);
    assert |r| == |s|;
    forall i | 0 <= i < |s| ensures r[i] == s[i] {
      assert r[i] == f(Map(s, f)[i]) == f(f(s[i]));
    }
  }

  /** `s.every(f)` */
  predicate Every<T>(s: seq<T>, f: T -> bool) {
    forall i :: 0 <= i < |s| ==> f(s[i])
  }

  /** `s.filter(f).length` */
  function Count<T>(s: seq<T>, f: T -> bool): (n: nat)
    ensures n <= |s|
    ensures n == |s| <==> Every(s, f)
  {
    if s == [] then 0
    else (if f(s[0]) then 1 else 0) + Count(s[1..], f)
  }
  /** What a filter keeps of one element. */
  function Keep<T>(x: T, f: T -> bool): seq<T> {
    if f(x) then [x] else []
  }

  /** A filter over a list that starts with `x` keeps `x` or not and goes on with the rest. */
  lemma FilterCons<T>(x: T, rest: seq<T>, f: T -> bool)
    ensures Filter([x] + rest, f) == Keep(x, f) + Filter(rest, f)
  {
    assert ([x] + rest)[1..] == rest;
  }

  /** A filter over four elements, element by element. */
  lemma FilterFour<T>(x0: T, x1: T, x2: T, x3: T, f: T -> bool)
    ensures Filter([x0, x1, x2, x3], f) == Keep(x0, f) + (Keep(x1, f) + (Keep(x2, f) + Keep(x3, f)))
  {
    FilterCons(x3, [], f);
    assert [x3] + [] == [x3];
    FilterCons(x2, [x3], f);
    FilterCons(x1, [x2] + [x3], f);
    FilterCons(x0, [x1] + ([x2] + [x3]), f);
    assert [x0] + ([x1] + ([x2] + [x3])) == [x0, x1, x2, x3];
  }

  /** A filter over eight elements, element by element. */
  lemma FilterEight<T>(x0: T, x1: T, x2: T, x3: T, x4: T, x5: T, x6: T, x7: T, f: T -> bool)
    ensures Filter([x0, x1, x2, x3, x4, x5, x6, x7], f) ==
      (Keep(x0, f) + (Keep(x1, f) + (Keep(x2, f) + Keep(x3, f)))) +
      (Keep(x4, f) + (Keep(x5, f) + (Keep(x6, f) + Keep(x7, f))))
  {
    FilterFour(x0, x1, x2, x3, f);
    FilterFour(x4, x5, x6, x7, f);
    FilterConcat([x0, x1, x2, x3], [x4, x5, x6, x7], f);
    assert [x0, x1, x2, x3] + [x4, x5, x6, x7] == [x0, x1, x2, x3, x4, x5, x6, x7];
  }

  /** Appending one element after a concatenation is appending it to the second part. */
  lemma AppendAssoc<T>(a: seq<T>, b: seq<T>, x: T)
    ensures (a + b) + [x] == a + (b + [x])
  {
  }
}
